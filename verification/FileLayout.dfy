/** Files on disk: block maps with twelve direct slots and one block of
    indirect ones, block bitmaps, and what a file's bytes are. */
module FileLayout {
  import opened Common
  import opened Bitmap


  const BLK := 4096
  const DIRECT := 12
  const PTRS := 1024
  const SLOTS := DIRECT + PTRS
  const MAX_SIZE := SLOTS * BLK
  const BITS := 8 * BLK
  const TWO32 := 0x1_0000_0000

  /** Block numbers are passed around as signed 32-bit numbers. */
  const MAX_BLKS := 0x8000_0000

  type Block = s: seq<Byte> | |s| == BLK witness seq(BLK, _ => 0)

  function Zero(): (b: Block)
    ensures forall i | 0 <= i < BLK :: b[i] == 0
  {
    seq(BLK, _ => 0)
  }

  // ------------------------------------------------------------ pointers in a block

  /** Entry `n` of an indirect block, a little-endian 32-bit number. */
  function PtrAt(b: Block, n: nat): nat
    requires n < PTRS
  {
    Word(b, 4 * n, 4)
  }

  lemma {:induction false} PtrBytes(b: Block, n: nat)
    requires n < PTRS
    ensures var w: nat, x: nat, y: nat, z: nat := b[4 * n], b[4 * n + 1], b[4 * n + 2], b[4 * n + 3];
            PtrAt(b, n) == w + 256 * (x + 256 * (y + 256 * z))
  {
    assert Word(b, 4 * n + 3, 1) == b[4 * n + 3];
    assert Word(b, 4 * n + 2, 2) == b[4 * n + 2] + 256 * Word(b, 4 * n + 3, 1);
    assert Word(b, 4 * n + 1, 3) == b[4 * n + 1] + 256 * Word(b, 4 * n + 2, 2);
  }

  function SetPtr(b: Block, n: nat, x: nat): (r: Block)
    requires n < PTRS && x < TWO32
  {
    b[4 * n := x % 256][4 * n + 1 := x / 256 % 256][4 * n + 2 := x / 65536 % 256][4 * n + 3 := x / 16777216 % 256]
  }

  lemma {:induction false} SetPtrIs(b: Block, n: nat, x: nat, m: nat)
    requires n < PTRS && x < TWO32 && m < PTRS
    ensures PtrAt(SetPtr(b, n, x), m) == if m == n then x else PtrAt(b, m)
  {
    PtrBytes(b, m);
    PtrBytes(SetPtr(b, n, x), m);
    if m == n {
      Digits(x);
    }
  }

  lemma {:induction false} Digits(x: nat)
    requires x < TWO32
    ensures x % 256 + 256 * (x / 256 % 256 + 256 * (x / 65536 % 256 + 256 * (x / 16777216 % 256))) == x
  {
    var y := x / 256;
    var z := y / 256;
    assert x / 65536 == z && x / 16777216 == z / 256;
  }

  lemma {:induction false} ZeroPtr(n: nat)
    requires n < PTRS
    ensures PtrAt(Zero(), n) == 0
  {
    PtrBytes(Zero(), n);
  }

  predicate Clear(b: Block) {
    forall m | 0 <= m < PTRS :: PtrAt(b, m) == 0
  }

  // --------------------------------------------------------------------------- the disk

  /** The superblock: where the bitmaps and the data start. */
  datatype Super = Super(ibmStart: nat, dbmStart: nat, nbDbm: nat, dataStart: nat, nbBlk: nat)

  datatype Inode = Inode(size: nat, dir: seq<nat>, indir: nat)

  /** What a data block is used for, by whom. Files without an indirect block
      find their slots from DIRECT on in block 0; such a slot is nobody's own. */
  datatype Owner = Free | Data(i: nat, n: nat) | Indir(i: nat) | Boot(n: nat)

  datatype Fs = Fs(sb: Super, blk: seq<Block>, inodes: map<nat, Inode>, own: seq<Owner>)

  predicate InData(fs: Fs, b: nat) {
    fs.sb.dataStart <= b < fs.sb.nbBlk
  }

  ghost predicate Sized(fs: Fs) {
    && |fs.blk| == |fs.own| == fs.sb.nbBlk <= MAX_BLKS
    && 0 < fs.sb.ibmStart < fs.sb.dbmStart && fs.sb.dbmStart + fs.sb.nbDbm <= fs.sb.dataStart <= fs.sb.nbBlk
    && fs.sb.nbBlk <= fs.sb.dataStart + BITS * fs.sb.nbDbm
    && forall i | i in fs.inodes :: |fs.inodes[i].dir| == DIRECT
  }

  /** The bitmap block with the bit of data block `b`, and the bit in it. */
  function BmBlk(sb: Super, b: nat): (bm: nat)
    requires sb.dataStart <= b
    ensures b < sb.dataStart + BITS * sb.nbDbm ==> sb.dbmStart <= bm < sb.dbmStart + sb.nbDbm
  {
    sb.dbmStart + (b - sb.dataStart) / BITS
  }

  function BmBit(sb: Super, b: nat): (bit: nat)
    requires sb.dataStart <= b
    ensures bit < BITS
  {
    (b - sb.dataStart) % BITS
  }

  /** Different blocks have different bits. */
  lemma {:induction false} BitsDiffer(sb: Super, b: nat, x: nat)
    requires sb.dataStart <= b && sb.dataStart <= x && BmBlk(sb, b) == BmBlk(sb, x) && BmBit(sb, b) == BmBit(sb, x)
    ensures b == x
  {
  }

  /** The bitmap has block `b` in use. */
  predicate Used(fs: Fs, b: nat)
    requires Sized(fs) && InData(fs, b)
  {
    BitAt(fs.blk[BmBlk(fs.sb, b)], BmBit(fs.sb, b))
  }

  /** The block number in slot `n` of file `i`, 0 if there is none. The number of
      the indirect block is used as it is, also when it is 0. */
  function BlkOf(fs: Fs, i: nat, n: nat): nat
    requires Sized(fs)
  {
    if i !in fs.inodes || n >= SLOTS then 0
    else if n < DIRECT then fs.inodes[i].dir[n]
    else if fs.inodes[i].indir >= |fs.blk| then 0
    else PtrAt(fs.blk[fs.inodes[i].indir], n - DIRECT)
  }

  /** Slot `n` of file `i` is in the inode or in an indirect block. */
  predicate Rooted(fs: Fs, i: nat, n: nat) {
    n < DIRECT || i !in fs.inodes || fs.inodes[i].indir != 0
  }

  function Home(fs: Fs, i: nat, n: nat): Owner {
    if Rooted(fs, i, n) then Data(i, n) else Boot(n)
  }

  /** The two are one slot: the same one of the same file, or of block 0. */
  predicate SameSlot(fs: Fs, i: nat, n: nat, j: nat, m: nat) {
    m == n && (j == i || (!Rooted(fs, i, n) && !Rooted(fs, j, n)))
  }

  /** The block in slot `n` of file `i`. */
  function SlotAt(fs: Fs, i: nat, n: nat): Option<Block>
    requires Sized(fs)
  {
    var b := BlkOf(fs, i, n);
    if b == 0 || b >= |fs.blk| then None else Some(fs.blk[b])
  }

  /** A long predicate as a value, which keeps it folded in the contracts that
      carry it. */
  datatype Verdict = Yes | No

  // --------------------------------------------------------------------------- invariant

  /** The block in slot `n` of file `i` belongs to that slot. */
  ghost predicate SlotOk(fs: Fs, i: nat, n: nat)
    requires Sized(fs)
  {
    var b := BlkOf(fs, i, n);
    b != 0 ==> InData(fs, b) && fs.own[b] == Home(fs, i, n)
  }

  ghost predicate InodeOk(fs: Fs, i: nat)
    requires Sized(fs) && i in fs.inodes
  {
    var x := fs.inodes[i];
    x.size <= MAX_SIZE && (x.indir != 0 ==> InData(fs, x.indir) && fs.own[x.indir] == Indir(i))
  }

  /** Every slot below the size of the file holds a block. */
  ghost predicate Filled(fs: Fs, i: nat)
    requires Sized(fs) && i in fs.inodes
  {
    forall n | 0 <= n < SLOTS && n * BLK < fs.inodes[i].size :: BlkOf(fs, i, n) != 0
  }

  /** A block that is not marked in the bitmap has no owner. */
  ghost predicate BlockOk(fs: Fs, b: nat)
    requires Sized(fs) && InData(fs, b)
  {
    !Used(fs, b) ==> fs.own[b] == Free
  }

  /** Each slot and each indirect block has a block of its own. */
  ghost predicate Shape(fs: Fs) {
    Sized(fs) && (forall i, n :: SlotOk(fs, i, n)) && forall i | i in fs.inodes :: InodeOk(fs, i)
  }

  ghost predicate Marks(fs: Fs)
    requires Sized(fs)
  {
    forall b | fs.sb.dataStart <= b < fs.sb.nbBlk :: BlockOk(fs, b)
  }

  /** The part of the invariant that also holds while a file is cut. */
  ghost predicate Core(fs: Fs) {
    Shape(fs) && Marks(fs)
  }

  ghost predicate Inv(fs: Fs) {
    Core(fs) && forall i | i in fs.inodes :: Filled(fs, i)
  }

  /** A block is in two slots exactly when they are one slot of block 0, and in
      no indirect block. */
  lemma {:induction false} NoSharing(fs: Fs, i: nat, n: nat, j: nat, m: nat)
    requires Shape(fs) && BlkOf(fs, i, n) != 0
    ensures InData(fs, BlkOf(fs, i, n))
    ensures BlkOf(fs, j, m) == BlkOf(fs, i, n) <==> SameSlot(fs, i, n, j, m)
    ensures j in fs.inodes ==> fs.inodes[j].indir != BlkOf(fs, i, n)
  {
    assert SlotOk(fs, i, n) && SlotOk(fs, j, m);
    if j in fs.inodes {
      assert InodeOk(fs, j);
    }
  }

  /** Every block in a slot is marked in the bitmap. */
  lemma {:induction false} SlotsMarked(fs: Fs, i: nat, n: nat)
    requires Core(fs) && BlkOf(fs, i, n) != 0
    ensures InData(fs, BlkOf(fs, i, n)) && Used(fs, BlkOf(fs, i, n))
  {
    assert SlotOk(fs, i, n);
    assert BlockOk(fs, BlkOf(fs, i, n));
  }

  // -------------------------------------------------------------------- taking a block

  /** Block `b` is marked in the bitmap and cleared, for owner `o`. */
  function Taken(fs: Fs, b: nat, o: Owner): Fs
    requires Sized(fs) && InData(fs, b)
  {
    var bm := BmBlk(fs.sb, b);
    fs.(blk := fs.blk[bm := Marked(fs.blk[bm], BmBit(fs.sb, b))][b := Zero()], own := fs.own[b := o])
  }

  /** The same slots hold the same blocks. */
  ghost predicate SameSlots(fs: Fs, fs': Fs) {
    && Sized(fs) && Sized(fs')
    && forall i, n :: BlkOf(fs', i, n) == BlkOf(fs, i, n) && SlotAt(fs', i, n) == SlotAt(fs, i, n)
  }

  lemma {:induction false} TakenSlot(fs: Fs, b: nat, o: Owner, i: nat, n: nat)
    requires Core(fs) && InData(fs, b) && !Used(fs, b)
    ensures BlkOf(Taken(fs, b, o), i, n) == BlkOf(fs, i, n) && SlotAt(Taken(fs, b, o), i, n) == SlotAt(fs, i, n)
    ensures SlotOk(Taken(fs, b, o), i, n)
  {
    assert BlockOk(fs, b) && SlotOk(fs, i, n);
    if i in fs.inodes {
      assert InodeOk(fs, i);
    }
  }

  lemma {:induction false} TakenUsed(fs: Fs, b: nat, o: Owner, x: nat)
    requires Sized(fs) && InData(fs, b) && InData(fs, x)
    ensures Used(Taken(fs, b, o), x) <==> x == b || Used(fs, x)
  {
    if BmBlk(fs.sb, x) == BmBlk(fs.sb, b) {
      MarkedIs(fs.blk[BmBlk(fs.sb, b)], BmBit(fs.sb, b), BmBit(fs.sb, x));
      if BmBit(fs.sb, x) == BmBit(fs.sb, b) {
        BitsDiffer(fs.sb, b, x);
      }
    }
  }

  lemma {:induction false} TakenOk(fs: Fs, b: nat, o: Owner)
    requires Inv(fs) && InData(fs, b) && !Used(fs, b)
    ensures Inv(Taken(fs, b, o)) && SameSlots(fs, Taken(fs, b, o))
  {
    var fs' := Taken(fs, b, o);
    forall i, n
      ensures SlotOk(fs', i, n) && BlkOf(fs', i, n) == BlkOf(fs, i, n) && SlotAt(fs', i, n) == SlotAt(fs, i, n)
    {
      TakenSlot(fs, b, o, i, n);
    }
    forall i | i in fs.inodes ensures InodeOk(fs', i) && Filled(fs', i) {
      assert InodeOk(fs, i) && BlockOk(fs, b) && Filled(fs, i);
    }
    forall x | fs.sb.dataStart <= x < fs.sb.nbBlk ensures BlockOk(fs', x) {
      assert BlockOk(fs, x);
      TakenUsed(fs, b, o, x);
    }
  }

  // ---------------------------------------------------------------- putting it in a slot

  function SetSlot(fs: Fs, i: nat, n: nat, b: nat): Fs
    requires Sized(fs) && i in fs.inodes && n < SLOTS && b < TWO32
    requires n >= DIRECT ==> fs.inodes[i].indir < |fs.blk|
  {
    var x := fs.inodes[i];
    if n < DIRECT then fs.(inodes := fs.inodes[i := x.(dir := x.dir[n := b])])
    else fs.(blk := fs.blk[x.indir := SetPtr(fs.blk[x.indir], n - DIRECT, b)])
  }

  lemma {:induction false} SetDirIs(fs: Fs, i: nat, n: nat, b: nat, j: nat, m: nat)
    requires Sized(fs) && i in fs.inodes && n < DIRECT && b < TWO32
    ensures var fs' := SetSlot(fs, i, n, b);
            Sized(fs') && BlkOf(fs', j, m) == if SameSlot(fs, i, n, j, m) then b else BlkOf(fs, j, m)
  {
  }

  /** Only files without an indirect block have the same table. */
  lemma {:induction false} SameTable(fs: Fs, i: nat, n: nat, j: nat, m: nat)
    requires Shape(fs) && i in fs.inodes && j in fs.inodes && DIRECT <= n < SLOTS && DIRECT <= m < SLOTS
    ensures fs.inodes[i].indir == fs.inodes[j].indir && m == n <==> SameSlot(fs, i, n, j, m)
    ensures fs.inodes[i].indir < |fs.blk| && fs.inodes[j].indir < |fs.blk|
  {
    assert InodeOk(fs, i) && InodeOk(fs, j);
  }

  lemma {:induction false} SetIndirIs(fs: Fs, i: nat, n: nat, b: nat, j: nat, m: nat)
    requires Shape(fs) && i in fs.inodes && DIRECT <= n < SLOTS && b < TWO32 && fs.inodes[i].indir < |fs.blk|
    ensures var fs' := SetSlot(fs, i, n, b);
            Sized(fs') && BlkOf(fs', j, m) == if SameSlot(fs, i, n, j, m) then b else BlkOf(fs, j, m)
  {
    if j in fs.inodes && DIRECT <= m < SLOTS {
      SameTable(fs, i, n, j, m);
      SetPtrIs(fs.blk[fs.inodes[i].indir], n - DIRECT, b, m - DIRECT);
    }
  }

  lemma {:induction false} SetSlotIs(fs: Fs, i: nat, n: nat, b: nat, j: nat, m: nat)
    requires Shape(fs) && i in fs.inodes && n < SLOTS && b < TWO32
    requires n >= DIRECT ==> fs.inodes[i].indir < |fs.blk|
    ensures var fs' := SetSlot(fs, i, n, b);
            && Sized(fs') && BlkOf(fs', j, m) == (if SameSlot(fs, i, n, j, m) then b else BlkOf(fs, j, m))
            && (!SameSlot(fs, i, n, j, m) ==> SlotAt(fs', j, m) == SlotAt(fs, j, m))
            && (SameSlot(fs, i, n, j, m) && b != fs.inodes[i].indir && 0 < b < |fs.blk| ==>
                  SlotAt(fs', j, m) == Some(fs.blk[b]))
  {
    assert InodeOk(fs, i) && SlotOk(fs, j, m);
    if n < DIRECT {
      SetDirIs(fs, i, n, b, j, m);
    } else {
      SetIndirIs(fs, i, n, b, j, m);
    }
  }

  /** Only slot `n` of file `i` changed, to block number `b`. */
  ghost predicate OneSlot(fs: Fs, fs': Fs, i: nat, n: nat, b: nat) {
    && Sized(fs) && Sized(fs')
    && forall j, m :: OneSlotAt(fs, fs', i, n, b, j, m)
  }

  ghost predicate OneSlotAt(fs: Fs, fs': Fs, i: nat, n: nat, b: nat, j: nat, m: nat)
    requires Sized(fs) && Sized(fs')
  {
    if SameSlot(fs, i, n, j, m) then BlkOf(fs', j, m) == b
    else BlkOf(fs', j, m) == BlkOf(fs, j, m) && SlotAt(fs', j, m) == SlotAt(fs, j, m)
  }

  lemma {:induction false} SetSlotSlots(fs: Fs, i: nat, n: nat, b: nat)
    requires Shape(fs) && i in fs.inodes && n < SLOTS && InData(fs, b) && fs.own[b] == Home(fs, i, n)
    requires n >= DIRECT ==> fs.inodes[i].indir < |fs.blk|
    ensures var fs' := SetSlot(fs, i, n, b);
            && OneSlot(fs, fs', i, n, b) && (forall j, m :: SlotOk(fs', j, m))
            && forall j, m | SameSlot(fs, i, n, j, m) :: SlotAt(fs', j, m) == Some(fs.blk[b])
  {
    var fs' := SetSlot(fs, i, n, b);
    assert InodeOk(fs, i);
    forall j, m
      ensures SlotOk(fs', j, m) && OneSlotAt(fs, fs', i, n, b, j, m)
      ensures SameSlot(fs, i, n, j, m) ==> SlotAt(fs', j, m) == Some(fs.blk[b])
    {
      SetSlotIs(fs, i, n, b, j, m);
      assert SlotOk(fs, j, m);
    }
  }

  /** Files stay in order when only slots and contents change. */
  lemma {:induction false} ShapeOk(fs: Fs, fs': Fs)
    requires Shape(fs) && Sized(fs') && fs'.sb == fs.sb && fs'.own == fs.own && fs'.inodes.Keys == fs.inodes.Keys
    requires forall i | i in fs.inodes ::
             fs'.inodes[i].size == fs.inodes[i].size && fs'.inodes[i].indir == fs.inodes[i].indir
    requires forall i, n :: SlotOk(fs', i, n)
    ensures Shape(fs')
  {
    forall i | i in fs'.inodes ensures InodeOk(fs', i) {
      assert InodeOk(fs, i);
    }
  }

  /** So does the bitmap when it is not written. */
  lemma {:induction false} MarksOk(fs: Fs, fs': Fs)
    requires Sized(fs) && Marks(fs) && Sized(fs') && fs'.sb == fs.sb && fs'.own == fs.own
    requires forall x | fs.sb.dbmStart <= x < fs.sb.dataStart :: fs'.blk[x] == fs.blk[x]
    ensures Marks(fs')
  {
    forall x | fs.sb.dataStart <= x < fs.sb.nbBlk ensures BlockOk(fs', x) {
      assert BlockOk(fs, x);
    }
  }

  lemma {:induction false} StaysFilled(fs: Fs, fs': Fs)
    requires Inv(fs) && Sized(fs') && fs'.inodes.Keys == fs.inodes.Keys
    requires forall i | i in fs.inodes :: fs'.inodes[i].size == fs.inodes[i].size
    requires forall i, n :: BlkOf(fs, i, n) != 0 ==> BlkOf(fs', i, n) != 0
    ensures forall i | i in fs'.inodes :: Filled(fs', i)
  {
    forall i | i in fs'.inodes ensures Filled(fs', i) {
      assert Filled(fs, i);
    }
  }

  lemma {:induction false} SetSlotShape(fs: Fs, i: nat, n: nat, b: nat)
    requires Shape(fs) && i in fs.inodes && n < SLOTS && InData(fs, b) && fs.own[b] == Home(fs, i, n)
    ensures fs.inodes[i].indir < |fs.blk|
    ensures var fs' := SetSlot(fs, i, n, b);
            && Shape(fs') && OneSlot(fs, fs', i, n, b)
            && forall j, m | SameSlot(fs, i, n, j, m) :: SlotAt(fs', j, m) == Some(fs.blk[b])
  {
    assert InodeOk(fs, i);
    SetSlotSlots(fs, i, n, b);
    ShapeOk(fs, SetSlot(fs, i, n, b));
  }

  /** Putting a block of its own into an empty slot changes that slot only. */
  lemma {:induction false} SetSlotOk(fs: Fs, i: nat, n: nat, b: nat)
    requires Inv(fs) && i in fs.inodes && n < SLOTS && InData(fs, b) && fs.own[b] == Home(fs, i, n)
    ensures fs.inodes[i].indir < |fs.blk|
    ensures var fs' := SetSlot(fs, i, n, b);
            && Inv(fs') && OneSlot(fs, fs', i, n, b)
            && forall j, m | SameSlot(fs, i, n, j, m) :: SlotAt(fs', j, m) == Some(fs.blk[b])
  {
    assert InodeOk(fs, i);
    var fs' := SetSlot(fs, i, n, b);
    SetSlotShape(fs, i, n, b);
    MarksOk(fs, fs');
    forall j, m ensures BlkOf(fs, j, m) != 0 ==> BlkOf(fs', j, m) != 0 {
      assert OneSlotAt(fs, fs', i, n, b, j, m);
    }
    StaysFilled(fs, fs');
  }

  // -------------------------------------------------------------------- writing a block

  function Stored(fs: Fs, b: nat, data: Block): Fs {
    if b < |fs.blk| then fs.(blk := fs.blk[b := data]) else fs
  }

  /** Writing the block of a slot changes that slot only. */
  lemma {:induction false} StoredOk(fs: Fs, i: nat, n: nat, data: Block)
    requires Inv(fs) && BlkOf(fs, i, n) != 0
    ensures var fs' := Stored(fs, BlkOf(fs, i, n), data);
            && Inv(fs')
            && forall j, m ::
                 && BlkOf(fs', j, m) == BlkOf(fs, j, m)
                 && SlotAt(fs', j, m) == if SameSlot(fs, i, n, j, m) then Some(data) else SlotAt(fs, j, m)
  {
    var b := BlkOf(fs, i, n);
    var fs' := Stored(fs, b, data);
    assert SlotOk(fs, i, n);
    forall j, m
      ensures BlkOf(fs', j, m) == BlkOf(fs, j, m) && SlotOk(fs', j, m)
      ensures SlotAt(fs', j, m) == if SameSlot(fs, i, n, j, m) then Some(data) else SlotAt(fs, j, m)
    {
      NoSharing(fs, i, n, j, m);
      assert SlotOk(fs, j, m);
    }
    ShapeOk(fs, fs');
    MarksOk(fs, fs');
    StaysFilled(fs, fs');
  }

  // ------------------------------------------------------------------------ running out

  const ENOSPC := 28

  /** What a slot is given when no block is left: the error code, as the
      unsigned number it is kept in. */
  const NO_SPACE := TWO32 - ENOSPC

  ghost predicate Full(fs: Fs)
    requires Sized(fs)
  {
    forall x | fs.sb.dataStart <= x < fs.sb.nbBlk :: Used(fs, x)
  }

  /** The blocks left, and the slots below `hi` from `lo` on that have none. */
  ghost function Unused(fs: Fs): (r: set<nat>)
    requires Sized(fs)
  {
    set x | fs.sb.dataStart <= x < fs.sb.nbBlk && !Used(fs, x)
  }

  ghost function Gaps(fs: Fs, i: nat, lo: nat, hi: nat): (r: set<nat>)
    requires Sized(fs)
  {
    set n | lo <= n < hi && SlotAt(fs, i, n).None?
  }

  lemma {:induction false} FullUnused(fs: Fs)
    requires Sized(fs)
    ensures Full(fs) <==> |Unused(fs)| == 0
  {
    if |Unused(fs)| == 0 {
      forall x | fs.sb.dataStart <= x < fs.sb.nbBlk ensures Used(fs, x) {
        assert x !in Unused(fs);
      }
    } else {
      var x :| x in Unused(fs);
    }
  }

  lemma {:induction false} TakenUnused(fs: Fs, b: nat, o: Owner)
    requires Sized(fs) && InData(fs, b) && !Used(fs, b)
    ensures |Unused(Taken(fs, b, o))| == |Unused(fs)| - 1
  {
    forall x | fs.sb.dataStart <= x < fs.sb.nbBlk ensures Used(Taken(fs, b, o), x) <==> x == b || Used(fs, x) {
      TakenUsed(fs, b, o, x);
    }
    assert Unused(Taken(fs, b, o)) == Unused(fs) - {b};
  }

  /** Only bitmap blocks say which blocks are left. */
  lemma {:induction false} SameUnused(fs: Fs, fs': Fs)
    requires Sized(fs) && Sized(fs') && fs'.sb == fs.sb
    requires forall x | fs.sb.dbmStart <= x < fs.sb.dataStart :: fs'.blk[x] == fs.blk[x]
    ensures Unused(fs') == Unused(fs)
  {
    forall x | fs.sb.dataStart <= x < fs.sb.nbBlk ensures Used(fs', x) <==> Used(fs, x) {
      assert BmBlk(fs.sb, x) < fs.sb.dataStart;
    }
  }

  lemma {:induction false} GapClosed(fs: Fs, fs': Fs, i: nat, n: nat, lo: nat, hi: nat)
    requires Sized(fs) && Sized(fs') && lo <= n < hi && SlotAt(fs', i, n).Some?
    requires forall m | m != n :: SlotAt(fs', i, m).None? <==> SlotAt(fs, i, m).None?
    ensures |Gaps(fs', i, lo, hi)| == |Gaps(fs, i, lo, hi)| - (if SlotAt(fs, i, n).None? then 1 else 0)
  {
    assert Gaps(fs', i, lo, hi) == Gaps(fs, i, lo, hi) - {n};
  }

  /** The error code in a slot: no slot changes but that one, which is then
      neither empty nor a block of the disk. */
  lemma {:induction false} NoSpaceSlot(fs: Fs, i: nat, n: nat)
    requires Shape(fs) && i in fs.inodes && n < SLOTS
    ensures fs.inodes[i].indir < |fs.blk|
    ensures var fs' := SetSlot(fs, i, n, NO_SPACE);
            OneSlot(fs, fs', i, n, NO_SPACE) && SlotAt(fs', i, n).None? && !Shape(fs')
  {
    assert InodeOk(fs, i);
    var fs' := SetSlot(fs, i, n, NO_SPACE);
    forall j, m ensures OneSlotAt(fs, fs', i, n, NO_SPACE, j, m) {
      SetSlotIs(fs, i, n, NO_SPACE, j, m);
    }
    assert OneSlotAt(fs, fs', i, n, NO_SPACE, i, n);
    assert !SlotOk(fs', i, n);
  }

  // -------------------------------------------------------------------- giving blocks back

  /** An empty slot is filled or a slot is emptied: no other slot changes. */
  lemma {:induction false} ClearSlotOk(fs: Fs, i: nat, n: nat)
    requires Core(fs) && i in fs.inodes && n < SLOTS
    ensures fs.inodes[i].indir < |fs.blk|
    ensures var fs' := SetSlot(fs, i, n, 0); Core(fs') && OneSlot(fs, fs', i, n, 0)
  {
    assert InodeOk(fs, i);
    var fs' := SetSlot(fs, i, n, 0);
    forall j, m ensures SlotOk(fs', j, m) && OneSlotAt(fs, fs', i, n, 0, j, m) {
      SetSlotIs(fs, i, n, 0, j, m);
      assert SlotOk(fs, j, m);
    }
    ShapeOk(fs, fs');
    MarksOk(fs, fs');
  }

  /** bfree: block `b` is unmarked, and its content is no longer defined. */
  function Freed(fs: Fs, b: nat, stale: Block): Fs
    requires Sized(fs) && InData(fs, b)
  {
    var bm := BmBlk(fs.sb, b);
    fs.(blk := fs.blk[b := stale][bm := Unmarked(fs.blk[bm], BmBit(fs.sb, b))], own := fs.own[b := Free])
  }

  /** Block `b` is in no slot, and holds no slots. */
  ghost predicate Unowned(fs: Fs, b: nat)
    requires Sized(fs)
  {
    (forall i, n :: BlkOf(fs, i, n) != b) && forall i | i in fs.inodes :: fs.inodes[i].indir != b
  }

  lemma {:induction false} FreedUsed(fs: Fs, b: nat, stale: Block, x: nat)
    requires Sized(fs) && InData(fs, b) && InData(fs, x)
    ensures Used(Freed(fs, b, stale), x) <==> x != b && Used(fs, x)
  {
    if BmBlk(fs.sb, x) == BmBlk(fs.sb, b) {
      MarkedIs(fs.blk[BmBlk(fs.sb, b)], BmBit(fs.sb, b), BmBit(fs.sb, x));
      if BmBit(fs.sb, x) == BmBit(fs.sb, b) {
        BitsDiffer(fs.sb, b, x);
      }
    }
  }

  lemma {:induction false} FreedOk(fs: Fs, b: nat, stale: Block)
    requires Core(fs) && InData(fs, b) && Unowned(fs, b)
    ensures Core(Freed(fs, b, stale)) && SameSlots(fs, Freed(fs, b, stale))
  {
    var fs' := Freed(fs, b, stale);
    forall i, n
      ensures SlotOk(fs', i, n) && BlkOf(fs', i, n) == BlkOf(fs, i, n) && SlotAt(fs', i, n) == SlotAt(fs, i, n)
    {
      FreedSlot(fs, b, stale, i, n);
    }
    forall i | i in fs.inodes ensures InodeOk(fs', i) {
      assert InodeOk(fs, i);
    }
    forall x | fs.sb.dataStart <= x < fs.sb.nbBlk ensures BlockOk(fs', x) {
      assert BlockOk(fs, x);
      FreedUsed(fs, b, stale, x);
    }
  }

  lemma {:induction false} FreedSlot(fs: Fs, b: nat, stale: Block, i: nat, n: nat)
    requires Core(fs) && InData(fs, b) && Unowned(fs, b)
    ensures var fs' := Freed(fs, b, stale);
            SlotOk(fs', i, n) && BlkOf(fs', i, n) == BlkOf(fs, i, n) && SlotAt(fs', i, n) == SlotAt(fs, i, n)
  {
    assert SlotOk(fs, i, n) && BlkOf(fs, i, n) != b;
    if i in fs.inodes {
      assert InodeOk(fs, i);
    }
  }
}
