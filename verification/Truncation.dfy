/** Truncating files (inode_truncate), also when block 0, which every file
    without an indirect block takes for its table, holds anything at all. */
module Truncation {
  import opened Common
  import opened Bitmap
  import opened FileLayout
  import opened Files

  /** The disk with a clear block 0. */
  function Blanked(fs: Fs): Fs
    requires |fs.blk| > 0
  {
    fs.(blk := fs.blk[0 := Zero()])
  }

  /** In order, but for what block 0 holds. */
  ghost predicate Orderly(fs: Fs) {
    Sized(fs) && Core(Blanked(fs))
  }

  lemma {:induction false} BlankedIs(fs: Fs, i: nat, n: nat)
    requires Sized(fs)
    ensures Sized(Blanked(fs)) && BlkOf(Blanked(fs), i, n) == if Rooted(fs, i, n) then BlkOf(fs, i, n) else 0
    ensures Rooted(fs, i, n) ==> SlotAt(Blanked(fs), i, n) == SlotAt(fs, i, n)
    ensures Rooted(Blanked(fs), i, n) == Rooted(fs, i, n)
  {
    if !Rooted(fs, i, n) && n < SLOTS {
      ZeroPtr(n - DIRECT);
    }
  }

  lemma {:induction false} BlankedUsed(fs: Fs, x: nat)
    requires Sized(fs) && InData(fs, x)
    ensures Used(Blanked(fs), x) == Used(fs, x)
  {
  }

  /** A disk in order is in order apart from block 0. */
  lemma {:induction false} CoreOrderly(fs: Fs)
    requires Core(fs)
    ensures Orderly(fs)
  {
    var f := Blanked(fs);
    forall i, n ensures SlotOk(f, i, n) {
      BlankedIs(fs, i, n);
      assert SlotOk(fs, i, n);
    }
    forall i | i in f.inodes ensures InodeOk(f, i) {
      assert InodeOk(fs, i);
    }
    forall x | fs.sb.dataStart <= x < fs.sb.nbBlk ensures BlockOk(f, x) {
      assert BlockOk(fs, x);
      BlankedUsed(fs, x);
    }
  }

  /** And the other way round when block 0 is clear. */
  lemma {:induction false} OrderlyCore(fs: Fs)
    requires Orderly(fs) && Clear(fs.blk[0])
    ensures Core(fs)
  {
    var f := Blanked(fs);
    forall i, n ensures SlotOk(fs, i, n) {
      BlankedIs(fs, i, n);
      assert SlotOk(f, i, n);
    }
    forall i | i in fs.inodes ensures InodeOk(fs, i) {
      assert InodeOk(f, i);
    }
    forall x | fs.sb.dataStart <= x < fs.sb.nbBlk ensures BlockOk(fs, x) {
      assert BlockOk(f, x);
      BlankedUsed(fs, x);
    }
  }

  // --------------------------------------------------------------------- releasing a slot

  ghost predicate SameInodes(fs: Fs, fs': Fs) {
    && fs'.sb == fs.sb && fs'.inodes.Keys == fs.inodes.Keys
    && forall j | j in fs.inodes ::
         fs'.inodes[j].size == fs.inodes[j].size && fs'.inodes[j].indir == fs.inodes[j].indir
  }

  /** Clearing a slot and freeing its block. */
  function Released(fs: Fs, i: nat, n: nat, disk: seq<Block>): Fs
    requires Sized(fs) && i in fs.inodes && n < SLOTS && fs.inodes[i].indir < |fs.blk| == |disk|
    requires InData(fs, BlkOf(fs, i, n))
  {
    var b := BlkOf(fs, i, n);
    Freed(SetSlot(fs, i, n, 0), b, disk[b])
  }

  lemma {:induction false} ReleasedOk(fs: Fs, i: nat, n: nat, disk: seq<Block>)
    requires Core(fs) && i in fs.inodes && n < SLOTS && BlkOf(fs, i, n) != 0 && |disk| == |fs.blk|
    ensures fs.inodes[i].indir < |fs.blk| && InData(fs, BlkOf(fs, i, n))
    ensures Core(Released(fs, i, n, disk)) && OneSlot(fs, Released(fs, i, n, disk), i, n, 0)
  {
    var b := BlkOf(fs, i, n);
    ClearSlotOk(fs, i, n);
    assert SlotOk(fs, i, n);
    var t := SetSlot(fs, i, n, 0);
    LostOwner(fs, t, i, n, b);
    FreedOk(t, b, disk[b]);
    forall j, m ensures OneSlotAt(fs, Released(fs, i, n, disk), i, n, 0, j, m) {
      assert OneSlotAt(fs, t, i, n, 0, j, m);
    }
  }

  lemma {:induction false} LostOwner(s: Fs, t: Fs, i: nat, n: nat, b: nat)
    requires Core(s) && Core(t) && OneSlot(s, t, i, n, 0) && BlkOf(s, i, n) == b != 0 && SameInodes(s, t)
    ensures InData(t, b) && Unowned(t, b)
  {
    assert SlotOk(s, i, n);
    forall j, m ensures BlkOf(t, j, m) != b {
      NoSharing(s, i, n, j, m);
      assert OneSlotAt(s, t, i, n, 0, j, m);
    }
    forall j | j in t.inodes ensures t.inodes[j].indir != b {
      NoSharing(s, i, n, j, 0);
    }
  }

  lemma {:induction false} ReleasedBlank(fs: Fs, i: nat, n: nat, disk: seq<Block>)
    requires Orderly(fs) && i in fs.inodes && n < SLOTS && Rooted(fs, i, n) && BlkOf(fs, i, n) != 0
    requires |disk| == |fs.blk|
    ensures fs.inodes[i].indir < |fs.blk| && InData(fs, BlkOf(fs, i, n))
    ensures BlkOf(Blanked(fs), i, n) == BlkOf(fs, i, n)
    ensures Blanked(Released(fs, i, n, disk)) == Released(Blanked(fs), i, n, disk)
    ensures Released(fs, i, n, disk).blk[0] == fs.blk[0] && SameInodes(fs, Released(fs, i, n, disk))
  {
    BlankedIs(fs, i, n);
    assert SlotOk(Blanked(fs), i, n) && InodeOk(Blanked(fs), i);
    var x, y := Blanked(Released(fs, i, n, disk)), Released(Blanked(fs), i, n, disk);
    assert x.blk == y.blk;
  }

  /** The blocks marked in `fs'` are those marked in `fs` but for `b`. */
  ghost predicate Unmarks(fs: Fs, fs': Fs, b: nat) {
    && Sized(fs) && Sized(fs') && fs'.sb == fs.sb
    && forall x | fs.sb.dataStart <= x < fs.sb.nbBlk :: Used(fs', x) <==> x != b && Used(fs, x)
  }

  lemma {:induction false} ReleasedUnmarks(fs: Fs, i: nat, n: nat, disk: seq<Block>)
    requires Orderly(fs) && i in fs.inodes && n < SLOTS && Rooted(fs, i, n) && BlkOf(fs, i, n) != 0
    requires |disk| == |fs.blk| && fs.inodes[i].indir < |fs.blk| && InData(fs, BlkOf(fs, i, n))
    ensures Unmarks(fs, Released(fs, i, n, disk), BlkOf(fs, i, n))
  {
    var b, t := BlkOf(fs, i, n), SetSlot(fs, i, n, 0);
    assert InodeOk(Blanked(fs), i);
    forall x | fs.sb.dataStart <= x < fs.sb.nbBlk ensures Used(Freed(t, b, disk[b]), x) <==> x != b && Used(fs, x) {
      FreedUsed(t, b, disk[b], x);
      assert BmBlk(fs.sb, x) < fs.sb.dataStart;
    }
  }

  /** One turn of the loops of inode_truncate, for a slot of the file's own. */
  method ReleaseSlot(v: Volume, i: nat, n: nat, disk: seq<Block>)
    requires Orderly(v.S()) && i in v.inodes && n < SLOTS && Rooted(v.S(), i, n) && |disk| == |v.blk|
    modifies v`blk, v`inodes, v`own
    ensures Orderly(v.S()) && OneSlot(Blanked(old(v.S())), Blanked(v.S()), i, n, 0)
    ensures SameInodes(old(v.S()), v.S()) && v.blk[0] == old(v.blk)[0]
    ensures Core(old(v.S())) ==> Core(v.S()) && OneSlot(old(v.S()), v.S(), i, n, 0)
    ensures Unmarks(old(v.S()), v.S(), BlkOf(old(v.S()), i, n))
  {
    ghost var s := v.S();
    OwnTable(s, i);
    var b := if n < DIRECT then v.inodes[i].dir[n] else PtrAt(v.blk[v.inodes[i].indir], n - DIRECT);
    BlankedIs(s, i, n);
    if b != 0 {
      ReleasedBlank(s, i, n, disk);
      ReleasedOk(Blanked(s), i, n, disk);
      ReleasedUnmarks(s, i, n, disk);
      if Core(s) {
        ReleasedOk(s, i, n, disk);
      }
      v.PutSlot(i, n, 0);
      var ok := v.Bfree(b, disk);
    } else {
      NothingReleased(Blanked(s), i, n);
      NothingReleased(s, i, n);
    }
  }

  lemma {:induction false} OwnTable(fs: Fs, i: nat)
    requires Orderly(fs) && i in fs.inodes
    ensures fs.inodes[i].indir < |fs.blk|
  {
    assert InodeOk(Blanked(fs), i);
  }

  lemma {:induction false} NothingReleased(fs: Fs, i: nat, n: nat)
    requires Sized(fs) && BlkOf(fs, i, n) == 0
    ensures OneSlot(fs, fs, i, n, 0)
  {
    forall j, m ensures OneSlotAt(fs, fs, i, n, 0, j, m) {
      if SameSlot(fs, i, n, j, m) {
        SharedEmpty(fs, i, n, j);
      }
    }
  }

  /** The slots of file `i` below `n` are empty, all other slots are as before. */
  ghost predicate Cut(fs: Fs, fs': Fs, i: nat, n: nat) {
    && Sized(fs) && Sized(fs') && SameInodes(fs, fs')
    && forall j, m :: CutAt(fs, fs', i, n, j, m)
  }

  ghost predicate CutAt(fs: Fs, fs': Fs, i: nat, n: nat, j: nat, m: nat)
    requires Sized(fs) && Sized(fs')
  {
    if j == i && m < n then BlkOf(fs', j, m) == 0
    else BlkOf(fs', j, m) == BlkOf(fs, j, m) && SlotAt(fs', j, m) == SlotAt(fs, j, m)
  }

  lemma {:induction false} CutMore(s: Fs, t: Fs, s': Fs, i: nat, n: nat)
    requires Cut(s, t, i, n) && OneSlot(t, s', i, n, 0) && SameInodes(t, s') && Rooted(t, i, n)
    ensures Cut(s, s', i, n + 1)
  {
    var next := n + 1;
    forall j, m ensures CutAt(s, s', i, next, j, m) {
      assert CutAt(s, t, i, n, j, m) && OneSlotAt(t, s', i, n, 0, j, m);
    }
  }

  /** The slots of `i` below `n` are gone from a disk that was `s`: apart from
      block 0, and with it if the disk was in order. */
  ghost predicate Cutting(s: Fs, t: Fs, i: nat, n: nat) {
    && Orderly(s) && Orderly(t) && i in t.inodes && SameInodes(s, t) && t.blk[0] == s.blk[0]
    && Cut(Blanked(s), Blanked(t), i, n) && (Core(s) ==> Core(t) && Cut(s, t, i, n))
  }

  lemma {:induction false} CutNone(s: Fs, i: nat)
    requires Orderly(s) && i in s.inodes
    ensures Cutting(s, s, i, 0)
  {
    var f := Blanked(s);
    forall j, m ensures CutAt(s, s, i, 0, j, m) && CutAt(f, f, i, 0, j, m) {}
  }

  /** The blocks that the first `n` slots of `i` had in `s`, slots of its own, are
      not marked any more. */
  ghost predicate Recovered(s: Fs, t: Fs, i: nat, n: nat) {
    && Sized(s) && Sized(t) && t.sb == s.sb
    && forall m | 0 <= m < n && Rooted(s, i, m) && InData(s, BlkOf(s, i, m)) :: !Used(t, BlkOf(s, i, m))
  }

  lemma {:induction false} RecoveredMore(s: Fs, t: Fs, s': Fs, i: nat, n: nat)
    requires Recovered(s, t, i, n) && Cutting(s, t, i, n) && Rooted(s, i, n) && Unmarks(t, s', BlkOf(t, i, n))
    ensures Recovered(s, s', i, n + 1)
  {
    BlankedIs(s, i, n);
    BlankedIs(t, i, n);
    assert CutAt(Blanked(s), Blanked(t), i, n, i, n);
    forall m | 0 <= m < n + 1 && Rooted(s, i, m) && InData(s, BlkOf(s, i, m)) ensures !Used(s', BlkOf(s, i, m)) {
      assert m < n ==> !Used(t, BlkOf(s, i, m));
    }
  }

  /** The loops of release_dir_blk_locked and release_indir_locked. */
  method ReleaseSlots(v: Volume, i: nat, lo: nat, hi: nat, disk: seq<Block>, ghost s: Fs)
    requires Cutting(s, v.S(), i, lo) && lo <= hi <= SLOTS && (hi > DIRECT ==> v.inodes[i].indir != 0)
    requires |disk| == |v.blk| && Recovered(s, v.S(), i, lo)
    modifies v`blk, v`inodes, v`own
    ensures Cutting(s, v.S(), i, hi) && Recovered(s, v.S(), i, hi)
  {
    var n := lo;
    while n < hi
      invariant lo <= n <= hi && Cutting(s, v.S(), i, n) && Recovered(s, v.S(), i, n)
    {
      ghost var t := v.S();
      ReleaseSlot(v, i, n, disk);
      RecoveredMore(s, t, v.S(), i, n);
      CutMore(Blanked(s), Blanked(t), Blanked(v.S()), i, n);
      if Core(s) {
        CutMore(s, t, v.S(), i, n);
      }
      n := n + 1;
    }
  }

  // ------------------------------------------------------------- working off block 0

  /** One of the first `m` entries of block 0 names block `x`. */
  predicate Hit(fs: Fs, m: nat, x: nat)
    requires Sized(fs) && m <= PTRS
  {
    exists k | 0 <= k < m :: PtrAt(fs.blk[0], k) == x
  }

  /** The mark of data block `x` after the first `m` entries of block 0 were
      freed: an entry that names the block clears it, one that names its bitmap
      block brings back the mark the disk has. */
  function MarkAfter(fs: Fs, disk: seq<Block>, m: nat, x: nat): bool
    requires Sized(fs) && |disk| == |fs.blk| && m <= PTRS && InData(fs, x)
  {
    if m == 0 then Used(fs, x) else
      var p := PtrAt(fs.blk[0], m - 1);
      if p == x then false
      else if p == BmBlk(fs.sb, x) then BitAt(disk[p], BmBit(fs.sb, x))
      else MarkAfter(fs, disk, m - 1, x)
  }

  /** Clearing entry `m` of block 0 and freeing what it names. */
  function BootFreed(fs: Fs, m: nat, disk: seq<Block>): (fs': Fs)
    requires Sized(fs) && m < PTRS && |disk| == |fs.blk|
    ensures Sized(fs')
  {
    var b := PtrAt(fs.blk[0], m);
    if b == 0 then fs else
      var t := fs.(blk := fs.blk[0 := SetPtr(fs.blk[0], m, 0)]);
      if InData(fs, b) then Freed(t, b, disk[b]).(own := fs.own) else Dropped(t, b, disk)
  }

  /** The first `m` entries of block 0 have been worked off. */
  ghost predicate Booted(fs: Fs, fs': Fs, m: nat, disk: seq<Block>)
    requires m <= PTRS
  {
    && Sized(fs) && Sized(fs') && |disk| == |fs.blk| && fs'.sb == fs.sb && fs'.inodes == fs.inodes && fs'.own == fs.own
    && (forall k | 0 <= k < PTRS :: PtrAt(fs'.blk[0], k) == if k < m then 0 else PtrAt(fs.blk[0], k))
    && (forall x | fs.sb.dataStart <= x < fs.sb.nbBlk :: BootedAt(fs, fs', m, disk, x))
  }

  ghost predicate BootedAt(fs: Fs, fs': Fs, m: nat, disk: seq<Block>, x: nat)
    requires Sized(fs) && Sized(fs') && |disk| == |fs.blk| && fs'.sb == fs.sb && m <= PTRS && InData(fs, x)
  {
    && (Used(fs', x) <==> MarkAfter(fs, disk, m, x))
    && fs'.blk[x] == if Hit(fs, m, x) then disk[x] else fs.blk[x]
  }

  lemma {:induction false} HitMore(fs: Fs, m: nat, x: nat)
    requires Sized(fs) && m < PTRS
    ensures Hit(fs, m + 1, x) <==> Hit(fs, m, x) || PtrAt(fs.blk[0], m) == x
  {
  }

  lemma {:induction false} BootFreedMark(fs: Fs, m: nat, disk: seq<Block>, x: nat)
    requires Sized(fs) && m < PTRS && |disk| == |fs.blk| && InData(fs, x)
    ensures var p, fs' := PtrAt(fs.blk[0], m), BootFreed(fs, m, disk);
            && (Used(fs', x) <==> (if p == x then false
                                   else if p == BmBlk(fs.sb, x) then BitAt(disk[p], BmBit(fs.sb, x)) else Used(fs, x)))
            && fs'.blk[x] == if p == x then disk[x] else fs.blk[x]
  {
    var p := PtrAt(fs.blk[0], m);
    if p != 0 {
      var t := fs.(blk := fs.blk[0 := SetPtr(fs.blk[0], m, 0)]);
      assert Used(t, x) <==> Used(fs, x);
      if InData(fs, p) {
        FreedUsed(t, p, disk[p], x);
      }
    }
  }

  lemma {:induction false} BootFreedTable(fs: Fs, m: nat, disk: seq<Block>, k: nat)
    requires Sized(fs) && m < PTRS && |disk| == |fs.blk| && k < PTRS
    ensures PtrAt(BootFreed(fs, m, disk).blk[0], k) == if k == m then 0 else PtrAt(fs.blk[0], k)
  {
    SetPtrIs(fs.blk[0], m, 0, k);
  }

  lemma {:induction false} BootedMore(fs: Fs, fs': Fs, m: nat, disk: seq<Block>)
    requires m < PTRS && Booted(fs, fs', m, disk)
    ensures Booted(fs, BootFreed(fs', m, disk), m + 1, disk)
  {
    var n, next := m + 1, BootFreed(fs', m, disk);
    forall k | 0 <= k < PTRS ensures PtrAt(next.blk[0], k) == if k < n then 0 else PtrAt(fs.blk[0], k) {
      BootFreedTable(fs', m, disk, k);
    }
    forall x | fs.sb.dataStart <= x < fs.sb.nbBlk ensures BootedAt(fs, next, n, disk, x) {
      assert BootedAt(fs, fs', m, disk, x);
      HitMore(fs, m, x);
      BootFreedMark(fs', m, disk, x);
    }
  }

  /** One turn of the second loop for a file without an indirect block. */
  method ReleaseBoot(v: Volume, m: nat, disk: seq<Block>)
    requires Sized(v.S()) && m < PTRS && |disk| == |v.blk|
    modifies v`blk, v`own
    ensures v.S() == BootFreed(old(v.S()), m, disk)
  {
    ghost var own := v.own;
    var b := PtrAt(v.blk[0], m);
    if b != 0 {
      v.blk := v.blk[0 := SetPtr(v.blk[0], m, 0)];
      var ok := v.Bfree(b, disk);
      v.own := own;
    }
  }

  // ---------------------------------------------------------------- what the others keep

  /** A block keeps its mark and its bytes. */
  ghost predicate Survives(fs: Fs, disk: seq<Block>, x: nat)
    requires Sized(fs) && |disk| == |fs.blk|
  {
    InData(fs, x) && MarkAfter(fs, disk, PTRS, x) && (Hit(fs, PTRS, x) ==> disk[x] == fs.blk[x])
  }

  /** Nothing that block 0 names is missed by a file other than `i`: it is clear
      if another file takes it for its table, and the blocks and indirect blocks
      of the others survive its entries. */
  ghost predicate Harmless(fs: Fs, i: nat, disk: seq<Block>)
    requires Sized(fs) && i in fs.inodes && |disk| == |fs.blk|
  {
    fs.inodes[i].indir == 0 ==>
      && (forall j | j in fs.inodes && j != i && fs.inodes[j].indir == 0 :: Clear(fs.blk[0]))
      && OthersSurvive(fs, i, disk)
  }

  ghost predicate OthersSurvive(fs: Fs, i: nat, disk: seq<Block>)
    requires Sized(fs) && |disk| == |fs.blk|
  {
    && (forall j, n | j != i && Rooted(fs, j, n) && BlkOf(fs, j, n) != 0 :: Survives(fs, disk, BlkOf(fs, j, n)))
    && (forall j | j in fs.inodes && j != i && fs.inodes[j].indir != 0 :: Survives(fs, disk, fs.inodes[j].indir))
  }

  /** Every file but `i` has its slots, the blocks in its own slots have their
      bytes and their marks, and its indirect block has its mark. */
  ghost predicate Keeps(fs: Fs, fs': Fs, i: nat) {
    && Sized(fs) && Sized(fs') && fs'.sb == fs.sb
    && (forall j, n | j != i :: KeepsSlot(fs, fs', j, n))
    && (forall j | j in fs.inodes && j != i && fs.inodes[j].indir != 0 :: InUse(fs', fs.inodes[j].indir))
  }

  ghost predicate KeepsSlot(fs: Fs, fs': Fs, j: nat, n: nat)
    requires Sized(fs) && Sized(fs')
  {
    && BlkOf(fs', j, n) == BlkOf(fs, j, n)
    && (Rooted(fs, j, n) ==> SlotAt(fs', j, n) == SlotAt(fs, j, n))
    && (Rooted(fs, j, n) && BlkOf(fs, j, n) != 0 ==> InUse(fs', BlkOf(fs, j, n)))
  }

  ghost predicate InUse(fs: Fs, x: nat)
    requires Sized(fs)
  {
    InData(fs, x) && Used(fs, x)
  }

  /** A block of a slot or of the indirect slots is marked, in any disk that is in
      order but for block 0. */
  lemma {:induction false} OwnMarked(fs: Fs, j: nat, n: nat)
    requires Orderly(fs)
    ensures Rooted(fs, j, n) && BlkOf(fs, j, n) != 0 ==> InUse(fs, BlkOf(fs, j, n))
    ensures j in fs.inodes && fs.inodes[j].indir != 0 ==> InUse(fs, fs.inodes[j].indir)
  {
    var f := Blanked(fs);
    BlankedIs(fs, j, n);
    if Rooted(fs, j, n) && BlkOf(fs, j, n) != 0 {
      SlotsMarked(f, j, n);
      BlankedUsed(fs, BlkOf(fs, j, n));
    }
    if j in fs.inodes && fs.inodes[j].indir != 0 {
      assert InodeOk(f, j);
      assert BlockOk(f, f.inodes[j].indir);
      BlankedUsed(fs, fs.inodes[j].indir);
    }
  }

  lemma {:induction false} SameMarkAfter(s: Fs, t: Fs, disk: seq<Block>, m: nat, x: nat)
    requires Sized(s) && Sized(t) && t.sb == s.sb && t.blk[0] == s.blk[0] && |disk| == |s.blk| && m <= PTRS
    requires InData(s, x) && (Used(t, x) <==> Used(s, x))
    ensures MarkAfter(t, disk, m, x) <==> MarkAfter(s, disk, m, x)
  {
    if m > 0 {
      SameMarkAfter(s, t, disk, m - 1, x);
    }
  }

  /** Tables with the same entries are the same block. */
  lemma {:induction false} SamePtrs(a: Block, b: Block)
    requires forall m | 0 <= m < PTRS :: PtrAt(a, m) == PtrAt(b, m)
    ensures a == b
  {
    forall k | 0 <= k < BLK ensures a[k] == b[k] {
      SamePtr(a, b, k / 4);
      assert k == 4 * (k / 4) + k % 4;
    }
  }

  lemma {:induction false} SamePtr(a: Block, b: Block, m: nat)
    requires m < PTRS && PtrAt(a, m) == PtrAt(b, m)
    ensures a[4 * m] == b[4 * m] && a[4 * m + 1] == b[4 * m + 1]
    ensures a[4 * m + 2] == b[4 * m + 2] && a[4 * m + 3] == b[4 * m + 3]
  {
    PtrBytes(a, m);
    PtrBytes(b, m);
    SameWord(a[4 * m], a[4 * m + 1], a[4 * m + 2], a[4 * m + 3], b[4 * m], b[4 * m + 1], b[4 * m + 2], b[4 * m + 3]);
  }

  lemma {:induction false} SameWord(w: nat, x: nat, y: nat, z: nat, w': nat, x': nat, y': nat, z': nat)
    requires w < 256 && x < 256 && y < 256 && w' < 256 && x' < 256 && y' < 256
    requires w + 256 * (x + 256 * (y + 256 * z)) == w' + 256 * (x' + 256 * (y' + 256 * z'))
    ensures w == w' && x == x' && y == y' && z == z'
  {
    SameDigit(w, w', x + 256 * (y + 256 * z), x' + 256 * (y' + 256 * z'));
    SameDigit(x, x', y + 256 * z, y' + 256 * z');
    SameDigit(y, y', z, z');
  }

  lemma {:induction false} SameDigit(x: nat, y: nat, p: nat, q: nat)
    requires x < 256 && y < 256 && x + 256 * p == y + 256 * q
    ensures x == y && p == q
  {
  }

  /** `t` is the disk `s` with the direct slots of `i` cut, `t'` the one with the
      entries of block 0 worked off too. */
  ghost predicate Worked(s: Fs, t: Fs, t': Fs, i: nat, disk: seq<Block>) {
    && Orderly(s) && Orderly(t) && i in s.inodes && s.inodes[i].indir == 0 && |disk| == |s.blk|
    && Cut(Blanked(s), Blanked(t), i, DIRECT) && SameInodes(s, t) && t.blk[0] == s.blk[0]
    && Booted(t, t', PTRS, disk)
  }

  /** The slots and blocks of other files after the direct slots are cut. */
  lemma {:induction false} OthersCut(s: Fs, t: Fs, i: nat, j: nat, n: nat)
    requires Orderly(s) && Orderly(t) && Cut(Blanked(s), Blanked(t), i, DIRECT) && SameInodes(s, t) && j != i
    ensures Rooted(t, j, n) == Rooted(s, j, n)
    ensures Rooted(s, j, n) ==> BlkOf(t, j, n) == BlkOf(s, j, n) && SlotAt(t, j, n) == SlotAt(s, j, n)
  {
    BlankedIs(s, j, n);
    BlankedIs(t, j, n);
    assert CutAt(Blanked(s), Blanked(t), i, DIRECT, j, n);
  }

  /** What becomes of a block that `s` and `t` both have in use. */
  lemma {:induction false} WorkedBlock(s: Fs, t: Fs, t': Fs, i: nat, disk: seq<Block>, x: nat)
    requires Worked(s, t, t', i, disk) && InUse(s, x) && InUse(t, x)
    ensures InUse(t', x) <==> MarkAfter(s, disk, PTRS, x)
    ensures t'.blk[x] == if Hit(s, PTRS, x) then disk[x] else t.blk[x]
  {
    assert BootedAt(t, t', PTRS, disk, x);
    SameMarkAfter(s, t, disk, PTRS, x);
  }

  lemma {:induction false} BootEmpty(s: Fs, t: Fs, t': Fs, i: nat, disk: seq<Block>, j: nat, n: nat)
    requires Worked(s, t, t', i, disk) && !Rooted(s, j, n)
    ensures BlkOf(t', j, n) == 0
  {
  }

  /** The indirect slots of another file, given what became of its table. */
  lemma {:induction false} WorkedSlot(s: Fs, t: Fs, t': Fs, i: nat, disk: seq<Block>, j: nat, n: nat)
    requires Worked(s, t, t', i, disk) && j != i && Rooted(s, j, n)
    requires j in s.inodes && s.inodes[j].indir != 0 ==> Survives(s, disk, s.inodes[j].indir)
    ensures BlkOf(t', j, n) == BlkOf(s, j, n)
  {
    OthersCut(s, t, i, j, n);
    if j in s.inodes && DIRECT <= n < SLOTS {
      OwnMarked(s, j, n);
      OwnMarked(t, j, n);
      WorkedBlock(s, t, t', i, disk, s.inodes[j].indir);
    }
  }

  /** One way: nothing is lost if all survives. */
  lemma {:induction false} SurvivorsKept(s: Fs, t: Fs, t': Fs, i: nat, disk: seq<Block>, j: nat, n: nat)
    requires Worked(s, t, t', i, disk) && j != i && OthersSurvive(s, i, disk) && Rooted(s, j, n)
    ensures KeepsSlot(s, t', j, n)
    ensures j in s.inodes && s.inodes[j].indir != 0 ==> InUse(t', s.inodes[j].indir)
  {
    WorkedSlot(s, t, t', i, disk, j, n);
    OthersCut(s, t, i, j, n);
    OwnMarked(s, j, n);
    OwnMarked(t, j, n);
    if BlkOf(s, j, n) != 0 {
      WorkedBlock(s, t, t', i, disk, BlkOf(s, j, n));
    }
    if j in s.inodes && s.inodes[j].indir != 0 {
      WorkedBlock(s, t, t', i, disk, s.inodes[j].indir);
    }
  }

  lemma {:induction false} HarmlessKeeps(s: Fs, t: Fs, t': Fs, i: nat, disk: seq<Block>)
    requires Worked(s, t, t', i, disk) && Harmless(s, i, disk)
    ensures Keeps(s, t', i)
  {
    forall j, n | j != i ensures KeepsSlot(s, t', j, n) {
      if Rooted(s, j, n) {
        SurvivorsKept(s, t, t', i, disk, j, n);
      } else {
        BootEmpty(s, t, t', i, disk, j, n);
      }
    }
    forall j | j in s.inodes && j != i && s.inodes[j].indir != 0 ensures InUse(t', s.inodes[j].indir) {
      SurvivorsKept(s, t, t', i, disk, j, 0);
    }
  }

  /** The other way: what is kept has survived. */
  lemma {:induction false} KeptSurvives(s: Fs, t: Fs, t': Fs, i: nat, disk: seq<Block>, j: nat, n: nat)
    requires Worked(s, t, t', i, disk) && j != i && Keeps(s, t', i) && Rooted(s, j, n)
    ensures BlkOf(s, j, n) != 0 ==> Survives(s, disk, BlkOf(s, j, n))
  {
    if BlkOf(s, j, n) != 0 {
      assert KeepsSlot(s, t', j, n);
      OwnMarked(s, j, n);
      OthersCut(s, t, i, j, n);
      OwnMarked(t, j, n);
      WorkedBlock(s, t, t', i, disk, BlkOf(s, j, n));
    }
  }

  lemma {:induction false} KeptTable(s: Fs, t: Fs, t': Fs, i: nat, disk: seq<Block>, j: nat)
    requires Worked(s, t, t', i, disk) && j != i && Keeps(s, t', i) && j in s.inodes && s.inodes[j].indir != 0
    ensures Survives(s, disk, s.inodes[j].indir)
  {
    var d := s.inodes[j].indir;
    OwnMarked(s, j, 0);
    OwnMarked(t, j, 0);
    WorkedBlock(s, t, t', i, disk, d);
    if Hit(s, PTRS, d) {
      forall m | 0 <= m < PTRS ensures PtrAt(disk[d], m) == PtrAt(s.blk[d], m) {
        assert KeepsSlot(s, t', j, DIRECT + m);
      }
      SamePtrs(disk[d], s.blk[d]);
    }
  }

  lemma {:induction false} KeepsHarmless(s: Fs, t: Fs, t': Fs, i: nat, disk: seq<Block>)
    requires Worked(s, t, t', i, disk) && Keeps(s, t', i)
    ensures Harmless(s, i, disk)
  {
    forall j | j in s.inodes && j != i && s.inodes[j].indir == 0 ensures Clear(s.blk[0]) {
      forall m | 0 <= m < PTRS ensures PtrAt(s.blk[0], m) == 0 {
        assert KeepsSlot(s, t', j, DIRECT + m);
        BootEmpty(s, t, t', i, disk, j, DIRECT + m);
      }
    }
    forall j, n | j != i && Rooted(s, j, n) && BlkOf(s, j, n) != 0 ensures Survives(s, disk, BlkOf(s, j, n)) {
      KeptSurvives(s, t, t', i, disk, j, n);
    }
    forall j | j in s.inodes && j != i && s.inodes[j].indir != 0 ensures Survives(s, disk, s.inodes[j].indir) {
      KeptTable(s, t, t', i, disk, j);
    }
  }

  // ------------------------------------------------------------------- the emptied file

  /** Some file has block `x` in a slot of its own, or as indirect block. */
  ghost predicate Owned(fs: Fs, x: nat)
    requires Sized(fs)
  {
    || (exists j, n :: Rooted(fs, j, n) && BlkOf(fs, j, n) == x)
    || (exists j :: j in fs.inodes && fs.inodes[j].indir == x)
  }

  /** File `i` is empty; blocks that no file has any more are nobody's. */
  ghost function Emptied(fs: Fs, i: nat): (fs': Fs)
    requires Sized(fs) && i in fs.inodes
    ensures Sized(fs')
  {
    fs.(inodes := fs.inodes[i := fs.inodes[i].(size := 0)],
        own := seq(|fs.own|, x requires 0 <= x < |fs.own| => if Owned(fs, x) then fs.own[x] else Free))
  }

  lemma {:induction false} EmptiedSlot(fs: Fs, i: nat, j: nat, n: nat)
    requires Sized(fs) && i in fs.inodes
    ensures BlkOf(Emptied(fs, i), j, n) == BlkOf(fs, j, n) && SlotAt(Emptied(fs, i), j, n) == SlotAt(fs, j, n)
    ensures Rooted(Emptied(fs, i), j, n) == Rooted(fs, j, n)
  {
  }

  /** The file whose slots were cut has none left. */
  lemma {:induction false} AllEmpty(s: Fs, t: Fs, t': Fs, i: nat, disk: seq<Block>, n: nat)
    requires Worked(s, t, t', i, disk)
    ensures BlkOf(t', i, n) == 0
  {
    if n < DIRECT {
      BlankedIs(t, i, n);
      assert CutAt(Blanked(s), Blanked(t), i, DIRECT, i, n);
    } else {
      BootEmpty(s, t, t', i, disk, i, n);
    }
  }

  /** If the blocks of the others survive, the disk is in order again. */
  lemma {:induction false} WorkedOrderly(s: Fs, t: Fs, t': Fs, i: nat, disk: seq<Block>)
    requires Worked(s, t, t', i, disk) && OthersSurvive(s, i, disk)
    ensures Clear(t'.blk[0]) && Core(Emptied(t', i))
  {
    var e := Emptied(t', i);
    forall j, n ensures SlotOk(e, j, n) {
      EmptiedSlot(t', i, j, n);
      WorkedSlotOk(s, t, t', i, disk, j, n);
    }
    forall j | j in e.inodes ensures InodeOk(e, j) {
      assert InodeOk(Blanked(t), j);
      assert t'.inodes[j].indir != 0 ==> Owned(t', t'.inodes[j].indir);
    }
    forall x | e.sb.dataStart <= x < e.sb.nbBlk ensures BlockOk(e, x) {
      if Owned(t', x) {
        OwnedUsed(s, t, t', i, disk, x);
      }
    }
  }

  lemma {:induction false} WorkedSlotOk(s: Fs, t: Fs, t': Fs, i: nat, disk: seq<Block>, j: nat, n: nat)
    requires Worked(s, t, t', i, disk) && OthersSurvive(s, i, disk)
    ensures var b := BlkOf(t', j, n); b != 0 ==>
            Rooted(t', j, n) && InData(t', b) && t'.own[b] == Data(j, n) && Owned(t', b)
  {
    if j == i {
      AllEmpty(s, t, t', i, disk, n);
    } else if !Rooted(s, j, n) {
      BootEmpty(s, t, t', i, disk, j, n);
    } else {
      WorkedSlot(s, t, t', i, disk, j, n);
      OthersCut(s, t, i, j, n);
      BlankedIs(t, j, n);
      assert SlotOk(Blanked(t), j, n);
    }
  }

  lemma {:induction false} OwnedUsed(s: Fs, t: Fs, t': Fs, i: nat, disk: seq<Block>, x: nat)
    requires Worked(s, t, t', i, disk) && OthersSurvive(s, i, disk) && Owned(t', x) && InData(t', x)
    ensures Used(t', x)
  {
    if j: nat, n: nat :| Rooted(t', j, n) && BlkOf(t', j, n) == x {
      AllEmpty(s, t, t', i, disk, n);
      SurvivorsKept(s, t, t', i, disk, j, n);
    } else {
      var j :| j in t'.inodes && t'.inodes[j].indir == x;
      SurvivorsKept(s, t, t', i, disk, j, 0);
    }
  }

  /** On a disk in order, block 0 included, the blocks of other files always
      survive: what block 0 names belongs to its own slots. */
  lemma {:induction false} CoreSurvives(fs: Fs, i: nat, disk: seq<Block>)
    requires Core(fs) && i in fs.inodes && fs.inodes[i].indir == 0 && |disk| == |fs.blk|
    ensures OthersSurvive(fs, i, disk)
  {
    CoreOrderly(fs);
    forall j, n | j != i && Rooted(fs, j, n) && BlkOf(fs, j, n) != 0 ensures Survives(fs, disk, BlkOf(fs, j, n)) {
      assert SlotOk(fs, j, n);
      OwnMarked(fs, j, n);
      Untouched(fs, i, disk, PTRS, BlkOf(fs, j, n));
    }
    forall j | j in fs.inodes && j != i && fs.inodes[j].indir != 0 ensures Survives(fs, disk, fs.inodes[j].indir) {
      assert InodeOk(fs, j);
      OwnMarked(fs, j, 0);
      Untouched(fs, i, disk, PTRS, fs.inodes[j].indir);
    }
  }

  lemma {:induction false} Untouched(fs: Fs, i: nat, disk: seq<Block>, m: nat, x: nat)
    requires Core(fs) && i in fs.inodes && fs.inodes[i].indir == 0 && |disk| == |fs.blk| && m <= PTRS
    requires InUse(fs, x) && !fs.own[x].Boot?
    ensures MarkAfter(fs, disk, m, x) && !Hit(fs, m, x)
  {
    if m > 0 {
      Untouched(fs, i, disk, m - 1, x);
      HitMore(fs, m - 1, x);
      assert SlotOk(fs, i, DIRECT + m - 1);
    }
  }

  /** So there it is enough to look for another file without an indirect block. */
  lemma {:induction false} HarmlessIs(fs: Fs, i: nat, disk: seq<Block>)
    requires Core(fs) && i in fs.inodes && |disk| == |fs.blk|
    ensures Harmless(fs, i, disk) <==>
            || fs.inodes[i].indir != 0 || Clear(fs.blk[0])
            || forall j | j in fs.inodes && j != i :: fs.inodes[j].indir != 0
  {
    if fs.inodes[i].indir == 0 {
      CoreSurvives(fs, i, disk);
    }
  }

  // --------------------------------------------------------------------- inode_truncate

  /** Files whose slots read the same have the same bytes. */
  lemma {:induction false} SameContent(s: Fs, s': Fs, j: nat)
    requires Sized(s) && Sized(s') && SizeOf(s', j) == SizeOf(s, j) && forall n :: SlotAt(s', j, n) == SlotAt(s, j, n)
    ensures Content(s', j) == Content(s, j)
  {
    forall k: nat ensures ByteAt(s', j, k) == ByteAt(s, j, k) {}
  }

  /** What truncation does to a disk `s`, `s'` being the disk after it. */
  ghost predicate Truncated(s: Fs, s': Fs, i: nat, disk: seq<Block>)
    requires Sized(s) && i in s.inodes && |disk| == |s.blk|
  {
    && Sized(s') && Content(s', i) == [] && (forall n :: BlkOf(s', i, n) == 0)
    && (Keeps(s, s', i) <==> Harmless(s, i, disk))
    && (Harmless(s, i, disk) ==> Orderly(s'))
    && (Core(s) ==> Core(s'))
    && (Harmless(s, i, disk) && (s.inodes[i].indir == 0 || Core(s)) ==>
          forall j | j != i :: Content(s', j) == Content(s, j))
    && (if s.inodes[i].indir == 0 then Clear(s'.blk[0]) else s'.blk[0] == s.blk[0])
    && SameIndirs(s, s') && forall j | j != i :: SizeOf(s', j) == SizeOf(s, j)
  }

  /** A file without an indirect block. */
  lemma {:induction false} BootEnds(s: Fs, t: Fs, t': Fs, i: nat, disk: seq<Block>)
    requires Worked(s, t, t', i, disk)
    ensures i in t'.inodes && Truncated(s, Emptied(t', i), i, disk)
  {
    var e := Emptied(t', i);
    forall n ensures BlkOf(e, i, n) == 0 {
      AllEmpty(s, t, t', i, disk, n);
      EmptiedSlot(t', i, i, n);
    }
    EmptiedKeeps(s, t', i);
    if Keeps(s, t', i) {
      KeepsHarmless(s, t, t', i, disk);
    }
    if Core(s) {
      CoreSurvives(s, i, disk);
    }
    if OthersSurvive(s, i, disk) {
      WorkedOrderly(s, t, t', i, disk);
      CoreOrderly(e);
    }
    if Harmless(s, i, disk) {
      HarmlessKeeps(s, t, t', i, disk);
      KeptContent(s, e, i);
    }
  }

  lemma {:induction false} EmptiedKeeps(s: Fs, t': Fs, i: nat)
    requires Sized(s) && Sized(t') && i in t'.inodes
    ensures Keeps(s, Emptied(t', i), i) <==> Keeps(s, t', i)
  {
    var e := Emptied(t', i);
    forall j, n | j != i ensures KeepsSlot(s, e, j, n) <==> KeepsSlot(s, t', j, n) {
      EmptiedSlot(t', i, j, n);
    }
  }

  lemma {:induction false} KeptContent(s: Fs, e: Fs, i: nat)
    requires Keeps(s, e, i) && Clear(e.blk[0]) && e.inodes.Keys == s.inodes.Keys
    requires forall j | j in s.inodes && j != i :: e.inodes[j].size == s.inodes[j].size
    requires forall j | j in s.inodes :: e.inodes[j].indir == s.inodes[j].indir
    ensures forall j | j != i :: Content(e, j) == Content(s, j)
  {
    forall j | j != i ensures Content(e, j) == Content(s, j) {
      forall n ensures SlotAt(e, j, n) == SlotAt(s, j, n) {
        assert KeepsSlot(s, e, j, n);
      }
      SameContent(s, e, j);
    }
  }

  function Shrunk(fs: Fs, i: nat): Fs
    requires i in fs.inodes
  {
    fs.(inodes := fs.inodes[i := fs.inodes[i].(size := 0)])
  }

  lemma {:induction false} ShrunkCore(fs: Fs, i: nat)
    requires i in fs.inodes
    ensures Core(fs) ==> Core(Shrunk(fs, i))
  {
    if Core(fs) {
      var e := Shrunk(fs, i);
      SameBlocks(fs, e);
      forall j, n ensures SlotOk(e, j, n) {
        assert SlotOk(fs, j, n);
      }
      forall j | j in e.inodes ensures InodeOk(e, j) {
        assert InodeOk(fs, j);
      }
      forall x | fs.sb.dataStart <= x < fs.sb.nbBlk ensures BlockOk(e, x) {
        assert BlockOk(fs, x);
      }
    }
  }

  /** A file with an indirect block. */
  lemma {:induction false} IndirEnds(s: Fs, t: Fs, i: nat, disk: seq<Block>)
    requires Cutting(s, t, i, SLOTS) && i in s.inodes && s.inodes[i].indir != 0 && |disk| == |s.blk|
    ensures Truncated(s, Shrunk(t, i), i, disk)
  {
    var e := Shrunk(t, i);
    SameBlocks(t, e);
    ShrunkCore(t, i);
    ShrunkCore(Blanked(t), i);
    assert Blanked(e) == Shrunk(Blanked(t), i);
    forall n ensures BlkOf(e, i, n) == 0 {
      BlankedIs(t, i, n);
      assert CutAt(Blanked(s), Blanked(t), i, SLOTS, i, n);
    }
    forall j, n | j != i ensures KeepsSlot(s, e, j, n) {
      CutKeeps(s, t, i, j, n);
    }
    forall j | j in s.inodes && j != i && s.inodes[j].indir != 0 ensures InUse(e, s.inodes[j].indir) {
      OwnMarked(t, j, 0);
    }
    if Core(s) {
      forall j | j != i ensures Content(e, j) == Content(s, j) {
        forall n ensures SlotAt(e, j, n) == SlotAt(s, j, n) {
          assert CutAt(s, t, i, SLOTS, j, n);
        }
        SameContent(s, e, j);
      }
    }
  }

  lemma {:induction false} CutKeeps(s: Fs, t: Fs, i: nat, j: nat, n: nat)
    requires Cutting(s, t, i, SLOTS) && j != i
    ensures KeepsSlot(s, t, j, n)
  {
    BlankedIs(s, j, n);
    BlankedIs(t, j, n);
    assert CutAt(Blanked(s), Blanked(t), i, SLOTS, j, n);
    OwnMarked(t, j, n);
  }

  /** The second loop for a file without an indirect block. */
  method ReleaseBoots(v: Volume, i: nat, disk: seq<Block>)
    requires Sized(v.S()) && |disk| == |v.blk|
    modifies v`blk, v`own
    ensures Booted(old(v.S()), v.S(), PTRS, disk)
  {
    ghost var t := v.S();
    var m := 0;
    while m < PTRS
      invariant 0 <= m <= PTRS && Booted(t, v.S(), m, disk)
    {
      BootedMore(t, v.S(), m, disk);
      ReleaseBoot(v, m, disk);
      m := m + 1;
    }
  }

  /** Block 0 of a disk in order names data blocks only, so what it names and what
      was free before is free afterwards. */
  lemma {:induction false} BootGone(s: Fs, t: Fs, disk: seq<Block>, i: nat, m: nat, x: nat)
    requires Core(s) && i in s.inodes && s.inodes[i].indir == 0 && m <= PTRS && |disk| == |s.blk|
    requires Sized(t) && t.sb == s.sb && t.blk[0] == s.blk[0] && InData(t, x) && (!Used(t, x) || Hit(t, m, x))
    ensures !MarkAfter(t, disk, m, x)
  {
    if m > 0 {
      HitMore(t, m - 1, x);
      assert SlotOk(s, i, DIRECT + m - 1);
      if PtrAt(t.blk[0], m - 1) != x {
        BootGone(s, t, disk, i, m - 1, x);
      }
    }
  }

  lemma {:induction false} BootRecovers(s: Fs, t: Fs, t': Fs, i: nat, disk: seq<Block>)
    requires Worked(s, t, t', i, disk) && Core(s) && Recovered(s, t, i, DIRECT)
    ensures forall n | BlkOf(s, i, n) != 0 :: InData(t', BlkOf(s, i, n)) && !Used(t', BlkOf(s, i, n))
  {
    forall n: nat | BlkOf(s, i, n) != 0 ensures InData(t', BlkOf(s, i, n)) && !Used(t', BlkOf(s, i, n)) {
      var x := BlkOf(s, i, n);
      assert SlotOk(s, i, n);
      if n >= DIRECT {
        assert PtrAt(t.blk[0], n - DIRECT) == x;
      }
      BootGone(s, t, disk, i, PTRS, x);
      assert BootedAt(t, t', PTRS, disk, x);
    }
  }

  /** Every block the file had is free again. */
  ghost predicate AllFree(s: Fs, s': Fs, i: nat) {
    && Sized(s) && Sized(s') && s'.sb == s.sb
    && forall n | BlkOf(s, i, n) != 0 :: InData(s, BlkOf(s, i, n)) && !Used(s', BlkOf(s, i, n))
  }

  lemma {:induction false} IndirRecovers(s: Fs, t: Fs, i: nat)
    requires Orderly(s) && i in s.inodes && s.inodes[i].indir != 0 && Recovered(s, t, i, SLOTS)
    ensures AllFree(s, t, i)
  {
    forall n | BlkOf(s, i, n) != 0 ensures InData(s, BlkOf(s, i, n)) && !Used(t, BlkOf(s, i, n)) {
      OwnMarked(s, i, n);
    }
  }

  /** inode_truncate: the file is empty, its blocks are free again. For a file
      without an indirect block the entries of block 0 are freed as well. */
  method Truncate(v: Volume, i: nat, disk: seq<Block>)
    requires Orderly(v.S()) && i in v.inodes && |disk| == |v.blk|
    modifies v`blk, v`inodes, v`own
    ensures Truncated(old(v.S()), v.S(), i, disk)
    ensures Inv(old(v.S())) ==> (Inv(v.S()) <==> NoneLonger(old(v.S()), i))
    ensures Core(old(v.S())) || old(v.inodes)[i].indir != 0 ==> AllFree(old(v.S()), v.S(), i)
  {
    ghost var s := v.S();
    CutNone(s, i);
    ReleaseSlots(v, i, 0, DIRECT, disk, s);
    ghost var t := v.S();
    if v.inodes[i].indir == 0 {
      ReleaseBoots(v, i, disk);
      BootEnds(s, t, v.S(), i, disk);
      if Core(s) {
        BootRecovers(s, t, v.S(), i, disk);
      }
      if Inv(s) {
        BootInv(s, t, v.S(), i, disk);
      }
      v.own := Emptied(v.S(), i).own;
    } else {
      ReleaseSlots(v, i, DIRECT, SLOTS, disk, s);
      IndirEnds(s, v.S(), i, disk);
      IndirRecovers(s, v.S(), i);
      if Inv(s) {
        IndirInv(s, v.S(), i);
      }
    }
    v.inodes := v.inodes[i := v.inodes[i].(size := 0)];
  }

  /** No other file reaches into block 0 for its bytes, or `i` has a table of its
      own. */
  ghost predicate NoneLonger(fs: Fs, i: nat)
    requires i in fs.inodes
  {
    || fs.inodes[i].indir != 0
    || forall j | j in fs.inodes && j != i && fs.inodes[j].indir == 0 :: fs.inodes[j].size <= DIRECT * BLK
  }

  lemma {:induction false} BootInv(s: Fs, t: Fs, t': Fs, i: nat, disk: seq<Block>)
    requires Worked(s, t, t', i, disk) && Inv(s) && Core(Emptied(t', i))
    ensures Inv(Emptied(t', i)) <==> NoneLonger(s, i)
  {
    var e := Emptied(t', i);
    CoreSurvives(s, i, disk);
    if NoneLonger(s, i) {
      forall j | j in e.inodes ensures Filled(e, j) {
        BootFilled(s, t, t', i, disk, j);
      }
    } else {
      var j :| j in s.inodes && j != i && s.inodes[j].indir == 0 && s.inodes[j].size > DIRECT * BLK;
      BootEmpty(s, t, t', i, disk, j, DIRECT);
      EmptiedSlot(t', i, j, DIRECT);
      assert !Filled(e, j);
    }
  }

  lemma {:induction false} BootFilled(s: Fs, t: Fs, t': Fs, i: nat, disk: seq<Block>, j: nat)
    requires Worked(s, t, t', i, disk) && Inv(s) && OthersSurvive(s, i, disk) && NoneLonger(s, i) && j in s.inodes
    ensures Filled(Emptied(t', i), j)
  {
    var e := Emptied(t', i);
    assert Filled(s, j);
    forall n | 0 <= n < SLOTS && n * BLK < e.inodes[j].size ensures BlkOf(e, j, n) != 0 {
      EmptiedSlot(t', i, j, n);
      SurvivorsKept(s, t, t', i, disk, j, n);
    }
  }

  lemma {:induction false} IndirInv(s: Fs, t: Fs, i: nat)
    requires Inv(s) && Cutting(s, t, i, SLOTS) && Core(Shrunk(t, i))
    ensures Inv(Shrunk(t, i))
  {
    var e := Shrunk(t, i);
    SameBlocks(t, e);
    forall j | j in e.inodes ensures Filled(e, j) {
      assert Filled(s, j);
      forall n | 0 <= n < SLOTS && n * BLK < e.inodes[j].size ensures BlkOf(e, j, n) != 0 {
        assert CutAt(s, t, i, SLOTS, j, n);
      }
    }
  }
}
