/** Reading and writing files (inode_read, inode_write) over the block
    allocator: a file is a sequence of bytes that can grow. */
module Files {
  import opened Common
  import opened Bitmap
  import opened FileLayout

  /** Byte `k` of file `i`; 0 where no block is mapped. */
  function ByteAt(fs: Fs, i: nat, k: nat): Byte
    requires Sized(fs)
  {
    var s := SlotAt(fs, i, k / BLK);
    if s.None? then 0 else s.value[k % BLK]
  }

  function SizeOf(fs: Fs, i: nat): nat {
    if i in fs.inodes then fs.inodes[i].size else 0
  }

  /** The bytes of file `i`. */
  function Content(fs: Fs, i: nat): (c: seq<Byte>)
    requires Sized(fs)
    ensures |c| == SizeOf(fs, i) && forall k | 0 <= k < |c| :: c[k] == ByteAt(fs, i, k)
  {
    seq(SizeOf(fs, i), k requires 0 <= k => ByteAt(fs, i, k))
  }

  /** `c` with `s` written over it from `o` on. */
  function Written(c: seq<Byte>, o: nat, s: seq<Byte>): seq<Byte>
    requires o <= |c|
  {
    c[..o] + s + (if o + |s| < |c| then c[o + |s|..] else [])
  }

  /** Positions of one block. */
  lemma {:induction false} InBlock(off: nat, m: nat, k: nat)
    requires off % BLK + m <= BLK && off <= k < off + m
    ensures k / BLK == off / BLK && k % BLK == off % BLK + (k - off)
  {
  }

  lemma {:induction false} OutsideBlock(off: nat, m: nat, k: nat)
    requires off % BLK + m <= BLK && !(off <= k < off + m) && k / BLK == off / BLK
    ensures k % BLK < off % BLK || off % BLK + m <= k % BLK
  {
  }

  function Patched(b: Block, at: nat, s: seq<Byte>): Block
    requires at + |s| <= BLK
  {
    b[..at] + s + b[at + |s|..]
  }

  /** Patching the block of one slot writes the bytes at its positions, for
      every file that has the slot. */
  lemma {:induction false} PatchBytes(fs: Fs, fs': Fs, i: nat, off: nat, s: seq<Byte>, j: nat, k: nat)
    requires Sized(fs) && Sized(fs') && off % BLK + |s| <= BLK
    requires var was, now := SlotAt(fs, j, k / BLK), SlotAt(fs', j, k / BLK);
             if SameSlot(fs, i, off / BLK, j, k / BLK)
             then was.Some? && now == Some(Patched(was.value, off % BLK, s)) else now == was
    ensures ByteAt(fs', j, k) ==
            if off <= k < off + |s| && SameSlot(fs, i, k / BLK, j, k / BLK) then s[k - off] else ByteAt(fs, j, k)
  {
    if off <= k < off + |s| {
      InBlock(off, |s|, k);
    } else if k / BLK == off / BLK {
      OutsideBlock(off, |s|, k);
    }
  }

  class Volume {
    const sb: Super
    var blk: seq<Block>
    var inodes: map<nat, Inode>
    ghost var own: seq<Owner>

    ghost function S(): Fs
      reads this
    {
      Fs(sb, blk, inodes, own)
    }

    /** A disk as the kernel finds it. */
    constructor (sb: Super, blk: seq<Block>, inodes: map<nat, Inode>, ghost own: seq<Owner>)
      ensures S() == Fs(sb, blk, inodes, own)
    {
      this.sb, this.blk, this.inodes, this.own := sb, blk, inodes, own;
    }

    /** The search of bbm_alloc. */
    method FindFree() returns (b: Option<nat>)
      requires Sized(S())
      ensures b.Some? ==> InData(S(), b.value) && !Used(S(), b.value)
      ensures b.Some? ==> forall x | sb.dataStart <= x < b.value :: Used(S(), x)
      ensures b.None? ==> forall x | sb.dataStart <= x < sb.nbBlk :: Used(S(), x)
    {
      var i := 0;
      while i < sb.nbDbm
        invariant 0 <= i <= sb.nbDbm
        invariant forall x | sb.dataStart <= x < sb.nbBlk && x < sb.dataStart + BITS * i :: Used(S(), x)
      {
        var bit := FindFirstZero(blk[sb.dbmStart + i], BITS);
        ScannedBits(S(), i, blk[sb.dbmStart + i], bit);
        if bit >= 0 {
          var no := bit + i * BITS + sb.dataStart;
          if no >= sb.nbBlk {
            return None;
          }
          return Some(no);
        }
        i := i + 1;
      }
      return None;
    }

    /** balloc: the first free block, marked and cleared. */
    method Balloc(ghost o: Owner) returns (b: Option<nat>)
      requires Inv(S())
      modifies this`blk, this`own
      ensures b.None? <==> forall x | sb.dataStart <= x < sb.nbBlk :: Used(old(S()), x)
      ensures b.None? ==> S() == old(S())
      ensures b.Some? ==>
                && InData(S(), b.value) && !Used(old(S()), b.value) && S() == Taken(old(S()), b.value, o)
                && Inv(S()) && SameSlots(old(S()), S()) && blk[b.value] == Zero() && Used(S(), b.value)
                && forall x | sb.dataStart <= x < b.value :: Used(old(S()), x)
    {
      b := FindFree();
      if b.Some? {
        TakenOk(S(), b.value, o);
        TakenUsed(S(), b.value, o, b.value);
        var bm := BmBlk(sb, b.value);
        blk := blk[bm := Marked(blk[bm], BmBit(sb, b.value))];
        blk := blk[b.value := Zero()];
        own := own[b.value := o];
      }
    }

    /** The block number a slot is given, as the 32-bit word in the slot. */
    method PutSlot(i: nat, n: nat, b: nat)
      requires Sized(S()) && i in inodes && n < SLOTS && b < TWO32 && (n >= DIRECT ==> inodes[i].indir < |blk|)
      modifies this`blk, this`inodes
      ensures S() == SetSlot(old(S()), i, n, b)
    {
      if n < DIRECT {
        inodes := inodes[i := inodes[i].(dir := inodes[i].dir[n := b])];
      } else {
        blk := blk[inodes[i].indir := SetPtr(blk[inodes[i].indir], n - DIRECT, b)];
      }
    }

    /** _get_data_locked: the block of slot `n`, allocated if there is none.
        Without space the error code ends up in the slot. */
    method GetData(i: nat, n: nat) returns (b: Option<nat>)
      requires Inv(S()) && i in inodes
      modifies this`blk, this`inodes, this`own
      ensures b.None? <==> n >= SLOTS || (BlkOf(old(S()), i, n) == 0 && Full(old(S())))
      ensures BlkOf(old(S()), i, n) != 0 || n >= SLOTS ==> S() == old(S())
      ensures n < SLOTS && BlkOf(old(S()), i, n) == 0 && Full(old(S())) ==> Exhausted(old(S()), S(), i, n)
      ensures b.Some? ==> b.value != 0 && DataFound(old(S()), S(), i, n, b.value)
    {
      if n >= SLOTS {
        return None;
      }
      var no := Lookup(i, n);
      if no != 0 {
        SlotFound(S(), i, n);
        return Some(no);
      }
      b := NewData(i, n);
    }

    /** The part of _get_data_locked for an empty slot. */
    method NewData(i: nat, n: nat) returns (b: Option<nat>)
      requires Inv(S()) && i in inodes && n < SLOTS && BlkOf(S(), i, n) == 0
      modifies this`blk, this`inodes, this`own
      ensures b.None? <==> Full(old(S()))
      ensures b.None? ==> Exhausted(old(S()), S(), i, n)
      ensures b.Some? ==> b.value != 0 && DataFound(old(S()), S(), i, n, b.value)
    {
      ghost var s := S();
      IndirReady(s, i);
      b := Balloc(Home(s, i, n));
      if b.None? {
        PutSlot(i, n, NO_SPACE);
        return;
      }
      FoundNew(s, S(), i, n, b.value);
      PutSlot(i, n, b.value);
    }

    /** The block number in slot `n`. */
    method Lookup(i: nat, n: nat) returns (b: nat)
      requires Inv(S()) && i in inodes && n < SLOTS
      ensures b == BlkOf(S(), i, n)
    {
      IndirReady(S(), i);
      if n < DIRECT {
        return inodes[i].dir[n];
      }
      return PtrAt(blk[inodes[i].indir], n - DIRECT);
    }

    /** One turn of the loop of inode_write: `part` goes into one block. */
    method WritePart(i: nat, off: nat, part: seq<Byte>) returns (ok: bool)
      requires Inv(S()) && i in inodes && part != [] && off % BLK + |part| <= BLK
      requires off / BLK < SLOTS
      modifies this`blk, this`inodes, this`own
      ensures Turn(old(S()), S(), i, off, part, ok) == Yes
    {
      ghost var s := S();
      var b := GetData(i, off / BLK);
      if b.None? {
        return false;
      }
      ghost var s1 := S();
      SlotFound(s1, i, off / BLK);
      blk := blk[b.value := Patched(blk[b.value], off % BLK, part)];
      PartStored(s, s1, S(), i, off, part, b.value);
      return true;
    }

    /** The loop of inode_write; `t` is the disk when it ends or, without space,
        before the turn that fails. */
    method WriteParts(i: nat, src: seq<Byte>, offset: nat) returns (done: nat, ghost t: Fs)
      requires Inv(S()) && i in inodes && offset + |src| <= MAX_SIZE
      modifies this`blk, this`inodes, this`own
      ensures done <= |src| && Progress(old(S()), t, i, offset, src, done) == Yes
      ensures if done == |src| then S() == t else Turn(t, S(), i, offset + done, [], false) == Yes
    {
      ghost var s := S();
      var off := offset;
      done, t := 0, s;
      ProgressNone(s, i, offset, src);
      while done < |src|
        invariant 0 <= done <= |src| && off == offset + done && t == S()
        invariant Progress(s, t, i, offset, src, done) == Yes
      {
        var ok, m := NextPart(i, src, offset, done, off, s);
        if !ok {
          return;
        }
        done, off, t := done + m, off + m, S();
      }
    }

    /** The turn for the bytes of `src` from `done` on. */
    method NextPart(i: nat, src: seq<Byte>, offset: nat, done: nat, off: nat, ghost s: Fs) returns (ok: bool, m: nat)
      requires done < |src| && off == offset + done && offset + |src| <= MAX_SIZE && i in s.inodes
      requires Progress(s, S(), i, offset, src, done) == Yes
      modifies this`blk, this`inodes, this`own
      ensures ok ==> 0 < m && done + m <= |src| && Progress(s, S(), i, offset, src, done + m) == Yes
      ensures !ok ==> Turn(old(S()), S(), i, off, [], false) == Yes
    {
      ghost var t := S();
      m := if |src| - done < BLK - off % BLK then |src| - done else BLK - off % BLK;
      InRange(off, offset, |src|);
      ProgressInv(s, t, i, offset, src, done);
      ok := WritePart(i, off, src[done..done + m]);
      if ok {
        ProgressMore(s, t, S(), i, offset, src, done, m);
      } else {
        assert Turn(t, S(), i, off, [], false) == Yes;
      }
    }

    /** inode_write: what fits is written. It all fits exactly when the slots
        without a block do not outnumber the blocks left; otherwise an error
        code stays in a slot. Other files keep their bytes, but for those that
        share slots of block 0 with this one: they get what was written there. */
    method Write(i: nat, src: seq<Byte>, offset: nat) returns (res: WriteResult)
      requires Inv(S()) && i in inodes
      modifies this`blk, this`inodes, this`own
      ensures res == EINVAL <==> offset > SizeOf(old(S()), i)
      ensures res == EFBIG <==> offset <= SizeOf(old(S()), i) && offset + |src| > MAX_SIZE
      ensures res == EINVAL || res == EFBIG ==> S() == old(S())
      ensures SameIndirs(old(S()), S())
      ensures res.Wrote? || res == ENOSPC_ERROR ==>
                && (res == Wrote(|src|) <==> Fits(old(S()), i, offset, |src|))
                && (Inv(S()) <==> Fits(old(S()), i, offset, |src|))
                && Sized(S()) && Count(res) <= |src|
                && Content(S(), i) == Written(Content(old(S()), i), offset, src[..Count(res)])
                && forall j | j != i :: Content(S(), j) == Overlaid(old(S()), i, j, offset, src[..Count(res)])
      ensures (res.Wrote? || res == ENOSPC_ERROR) && Count(res) < |src| ==> StoppedAt(old(S()), i, offset, Count(res))
    {
      if offset > inodes[i].size {
        return EINVAL;
      }
      if offset + |src| > MAX_SIZE {
        return EFBIG;
      }
      ghost var s := S();
      var done, t := WriteParts(i, src, offset);
      WriteOutcome(s, t, S(), i, offset, src, done);
      WriteIndirs(s, t, S(), i, offset, src, done);
      if done < |src| {
        ShortStops(s, t, S(), i, offset, src, done);
      }
      if inodes[i].size < offset + done {
        inodes := inodes[i := inodes[i].(size := offset + done)];
      }
      return if done == 0 && src != [] then ENOSPC_ERROR else Wrote(done);
    }

    /** inode_read: exactly the bytes asked for, or nothing past the end. */
    method Read(i: nat, offset: nat, count: nat) returns (res: Option<seq<Byte>>)
      requires Inv(S()) && i in inodes
      modifies this`blk, this`inodes, this`own
      ensures S() == old(S())
      ensures res.None? <==> offset + count > SizeOf(S(), i)
      ensures res.Some? ==> res.value == Content(S(), i)[offset..offset + count]
    {
      if offset + count > inodes[i].size {
        return None;
      }
      ghost var s := S();
      var done, off, dst := 0, offset, [];
      while done < count
        invariant 0 <= done <= count && off == offset + done && S() == s
        invariant dst == Content(s, i)[offset..offset + done]
      {
        var m := if count - done < BLK - off % BLK then count - done else BLK - off % BLK;
        var part := ReadPart(i, off, m);
        dst := dst + part;
        done, off := done + m, off + m;
      }
      return Some(dst);
    }

    /** One turn of the loop of inode_read. */
    method ReadPart(i: nat, off: nat, m: nat) returns (part: seq<Byte>)
      requires Inv(S()) && i in inodes && off + m <= inodes[i].size && m > 0 && off % BLK + m <= BLK
      modifies this`blk, this`inodes, this`own
      ensures S() == old(S()) && part == Content(S(), i)[off..off + m]
    {
      ReadReady(S(), i, off);
      PartRead(S(), i, off, m);
      var b := GetData(i, off / BLK);
      part := blk[b.value][off % BLK..off % BLK + m];
    }

    /** bfree with bbm_free. What the cache had of the block is dropped, so it
        reads as the disk has it; only data blocks are then unmarked. */
    method Bfree(b: nat, disk: seq<Block>) returns (ok: bool)
      requires Sized(S()) && |disk| == |blk|
      modifies this`blk, this`own
      ensures ok <==> InData(old(S()), b)
      ensures S() == if ok then Freed(old(S()), b, disk[b]) else Dropped(old(S()), b, disk)
      ensures b < |blk| ==> blk[b] == disk[b]
      ensures ok ==> forall x | sb.dataStart <= x < sb.nbBlk :: Used(S(), x) <==> x != b && Used(old(S()), x)
    {
      ghost var s := S();
      if InData(s, b) {
        forall x | sb.dataStart <= x < sb.nbBlk ensures Used(Freed(s, b, disk[b]), x) <==> x != b && Used(s, x) {
          FreedUsed(s, b, disk[b], x);
        }
      }
      if b < |blk| {
        blk := blk[b := disk[b]];
      }
      ok := sb.dataStart <= b < sb.nbBlk;
      if ok {
        var bm := BmBlk(sb, b);
        blk := blk[bm := Unmarked(blk[bm], BmBit(sb, b))];
        own := own[b := Free];
      }
    }
  }

  /** bcache_invalidate: the block reads as the disk has it. */
  function Dropped(fs: Fs, b: nat, disk: seq<Block>): Fs
    requires |disk| == |fs.blk|
  {
    if b < |fs.blk| then fs.(blk := fs.blk[b := disk[b]]) else fs
  }

  // ------------------------------------------------------------------------ finding a block

  lemma {:induction false} SlotFound(fs: Fs, i: nat, n: nat)
    requires Inv(fs) && BlkOf(fs, i, n) != 0
    ensures 0 < BlkOf(fs, i, n) < |fs.blk| && InData(fs, BlkOf(fs, i, n)) && SlotAt(fs, i, n).Some?
  {
    assert SlotOk(fs, i, n);
  }

  /** A file that grows past its direct slots without an indirect block shares
      the new slot with exactly the files that have none either. */
  lemma {:induction false} SharedExactly(fs: Fs, i: nat, n: nat, b: nat, j: nat)
    requires Inv(fs) && i in fs.inodes && j in fs.inodes && j != i && fs.inodes[i].indir == 0
    requires DIRECT <= n < SLOTS && InData(fs, b) && !Used(fs, b)
    ensures var fs' := SetSlot(Taken(fs, b, Boot(n)), i, n, b);
            Inv(fs') && (BlkOf(fs', j, n) == b <==> fs.inodes[j].indir == 0)
  {
    var t := Taken(fs, b, Boot(n));
    TakenOk(fs, b, Boot(n));
    SetSlotOk(t, i, n, b);
    SharedSees(t, SetSlot(t, i, n, b), i, n, b, j);
  }

  lemma {:induction false} SharedSees(t: Fs, t': Fs, i: nat, n: nat, b: nat, j: nat)
    requires Shape(t') && OneSlot(t, t', i, n, b) && b != 0 && j != i && i in t.inodes && j in t.inodes
    requires DIRECT <= n && t.inodes[i].indir == 0 && t'.inodes == t.inodes
    ensures BlkOf(t', j, n) == b <==> t.inodes[j].indir == 0
  {
    assert OneSlotAt(t, t', i, n, b, i, n);
    NoSharing(t', i, n, j, n);
  }

  /** Slot `n` of file `i` has block `b`, which is one of the blocks that were
      left if the slot had none; nothing else changed. */
  ghost predicate DataFound(fs: Fs, fs': Fs, i: nat, n: nat, b: nat) {
    && Sized(fs) && Inv(fs') && BlkOf(fs', i, n) == b && Slotted(fs, fs', i, n)
    && |Unused(fs')| == |Unused(fs)| - (if BlkOf(fs, i, n) == 0 then 1 else 0)
    && (BlkOf(fs, i, n) != 0 ==> fs' == fs)
  }

  lemma {:induction false} FoundNew(s: Fs, t: Fs, i: nat, n: nat, b: nat)
    requires Inv(s) && i in s.inodes && n < SLOTS && InData(s, b) && !Used(s, b) && BlkOf(s, i, n) == 0
    requires t == Taken(s, b, Home(s, i, n)) && Inv(t) && SameSlots(s, t)
    ensures t.inodes[i].indir < |t.blk|
    ensures DataFound(s, SetSlot(t, i, n, b), i, n, b)
  {
    SetSlotOk(t, i, n, b);
    FoundCount(s, t, i, n, b);
    FoundSlots(s, t, SetSlot(t, i, n, b), i, n, b);
    assert OneSlotAt(t, SetSlot(t, i, n, b), i, n, b, i, n);
  }

  lemma {:induction false} FoundCount(s: Fs, t: Fs, i: nat, n: nat, b: nat)
    requires Sized(s) && i in s.inodes && n < SLOTS && InData(s, b) && !Used(s, b)
    requires t == Taken(s, b, Home(s, i, n)) && Inv(t)
    ensures t.inodes[i].indir < |t.blk| && Sized(SetSlot(t, i, n, b))
    ensures |Unused(SetSlot(t, i, n, b))| == |Unused(s)| - 1
  {
    TakenUnused(s, b, Home(s, i, n));
    SlotUnused(t, i, n, b);
  }

  lemma {:induction false} FoundSlots(s: Fs, t: Fs, s': Fs, i: nat, n: nat, b: nat)
    requires Inv(s) && i in s.inodes && n < SLOTS && InData(s, b) && BlkOf(s, i, n) == 0
    requires t == Taken(s, b, Home(s, i, n)) && SameSlots(s, t) && OneSlot(t, s', i, n, b)
    requires forall j, m | SameSlot(t, i, n, j, m) :: SlotAt(s', j, m) == Some(t.blk[b])
    requires s'.sb == s.sb && s'.inodes.Keys == s.inodes.Keys
    requires forall j | j in s.inodes ::
               s'.inodes[j].size == s.inodes[j].size && s'.inodes[j].indir == s.inodes[j].indir
    ensures Slotted(s, s', i, n)
  {
    forall j, m ensures SlottedAt(s, s', i, n, j, m) {
      assert OneSlotAt(t, s', i, n, b, j, m);
      assert SlotAt(t, j, m) == SlotAt(s, j, m) && BlkOf(t, j, m) == BlkOf(s, j, m);
      if SameSlot(s, i, n, j, m) {
        SharedEmpty(s, i, n, j);
      }
    }
  }

  /** Files that share a slot find the same in it. */
  lemma {:induction false} SharedEmpty(fs: Fs, i: nat, n: nat, j: nat)
    requires Sized(fs) && SameSlot(fs, i, n, j, n)
    ensures BlkOf(fs, j, n) == BlkOf(fs, i, n) && SlotAt(fs, j, n) == SlotAt(fs, i, n)
  {
  }

  /** No block is left, and the error code is in slot `n`. */
  ghost predicate Exhausted(fs: Fs, fs': Fs, i: nat, n: nat) {
    && Sized(fs) && Full(fs) && i in fs.inodes && n < SLOTS && SlotAt(fs, i, n).None?
    && fs.inodes[i].indir < |fs.blk| && fs' == SetSlot(fs, i, n, NO_SPACE)
  }

  /** Setting a slot writes no bitmap block. */
  lemma {:induction false} SlotUnused(fs: Fs, i: nat, n: nat, b: nat)
    requires Inv(fs) && i in fs.inodes && n < SLOTS && b < TWO32
    ensures fs.inodes[i].indir < |fs.blk|
    ensures Sized(SetSlot(fs, i, n, b)) && Unused(SetSlot(fs, i, n, b)) == Unused(fs)
  {
    assert InodeOk(fs, i);
    SameUnused(fs, SetSlot(fs, i, n, b));
  }

  // ------------------------------------------------------------------------- room to write

  function Blocks(size: nat): nat {
    (size + BLK - 1) / BLK
  }

  /** The slots a write needs and does not find do not outnumber the blocks
      left. */
  ghost predicate Fits(fs: Fs, i: nat, offset: nat, count: nat)
    requires Sized(fs)
  {
    count == 0 || |Gaps(fs, i, offset / BLK, Blocks(offset + count))| <= |Unused(fs)|
  }

  /** Every slot that got a block took one of the blocks left. */
  ghost predicate Balanced(fs: Fs, fs': Fs, i: nat, lo: nat, hi: nat) {
    && Sized(fs) && Sized(fs')
    && |Unused(fs)| - |Gaps(fs, i, lo, hi)| == |Unused(fs')| - |Gaps(fs', i, lo, hi)|
  }

  ghost predicate PartSpent(fs: Fs, fs': Fs, i: nat, off: nat, part: seq<Byte>) {
    && Inv(fs') && PartWritten(fs, fs', i, off, part)
    && (forall m | m != off / BLK :: SlotAt(fs', i, m).None? <==> SlotAt(fs, i, m).None?)
    && |Unused(fs')| == |Unused(fs)| - (if SlotAt(fs, i, off / BLK).None? then 1 else 0)
  }

  /** One turn of the loop of inode_write, which found a block or did not. */
  ghost function Turn(fs: Fs, fs': Fs, i: nat, off: nat, part: seq<Byte>, ok: bool): Verdict {
    if (if ok then PartSpent(fs, fs', i, off, part) else Exhausted(fs, fs', i, off / BLK)) then Yes else No
  }

  /** That, for every stretch of slots that begins with the write and reaches
      `from` at least. */
  ghost predicate BalancedFrom(fs: Fs, fs': Fs, i: nat, lo: nat, from: nat) {
    forall hi: nat | from <= hi :: Balanced(fs, fs', i, lo, hi)
  }

  lemma {:induction false} StillBalanced(s: Fs, t: Fs, s': Fs, i: nat, offset: nat, done: nat, part: seq<Byte>)
    requires BalancedFrom(s, t, i, offset / BLK, Blocks(offset + done)) && part != []
    requires PartSpent(t, s', i, offset + done, part)
    ensures BalancedFrom(s, s', i, offset / BLK, Blocks(offset + done + |part|))
  {
    var lo, n := offset / BLK, (offset + done) / BLK;
    forall hi: nat | Blocks(offset + done + |part|) <= hi ensures Balanced(s, s', i, lo, hi) {
      assert lo <= n < hi && Blocks(offset + done) <= hi;
      assert Balanced(s, t, i, lo, hi);
      GapClosed(t, s', i, n, lo, hi);
    }
  }

  /** The first `done` bytes of `src` have been written, as a value, which
      keeps the definitions folded in the loop. */
  ghost function Progress(s: Fs, t: Fs, i: nat, offset: nat, src: seq<Byte>, done: nat): Verdict
    requires done <= |src|
  {
    if Writing(s, t, i, offset, src[..done]) && BalancedFrom(s, t, i, offset / BLK, Blocks(offset + done)) then Yes
    else No
  }

  lemma {:induction false} ProgressNone(s: Fs, i: nat, offset: nat, src: seq<Byte>)
    requires Inv(s)
    ensures Progress(s, s, i, offset, src, 0) == Yes
  {
  }

  lemma {:induction false} ProgressInv(s: Fs, t: Fs, i: nat, offset: nat, src: seq<Byte>, done: nat)
    requires done <= |src| && Progress(s, t, i, offset, src, done) == Yes && i in s.inodes
    ensures Inv(t) && i in t.inodes
  {
  }

  lemma {:induction false} ProgressMore(s: Fs, t: Fs, s': Fs, i: nat, offset: nat, src: seq<Byte>, done: nat, m: nat)
    requires done < done + m <= |src| && Progress(s, t, i, offset, src, done) == Yes
    requires Turn(t, s', i, offset + done, src[done..done + m], true) == Yes
    ensures Progress(s, s', i, offset, src, done + m) == Yes
  {
    ProgressWritten(s, t, s', i, offset, src, done, m);
    StillBalanced(s, t, s', i, offset, done, src[done..done + m]);
  }

  lemma {:induction false} ProgressWritten(s: Fs, t: Fs, s': Fs, i: nat, offset: nat, src: seq<Byte>, done: nat, m: nat)
    requires done < done + m <= |src| && Writing(s, t, i, offset, src[..done]) && Inv(s')
    requires PartWritten(t, s', i, offset + done, src[done..done + m])
    ensures Writing(s, s', i, offset, src[..done + m])
  {
    MoreWritten(s, t, s', i, offset, src[..done], src[done..done + m]);
    assert src[..done] + src[done..done + m] == src[..done + m];
  }

  /** The same files, each with the indirect block it had, if any. */
  ghost predicate SameIndirs(s: Fs, s': Fs) {
    s'.sb == s.sb && s'.inodes.Keys == s.inodes.Keys && forall j | j in s.inodes ::
      s'.inodes[j].indir == s.inodes[j].indir
  }

  function Grow(fs: Fs, i: nat, size: nat): Fs
    requires i in fs.inodes
  {
    if fs.inodes[i].size < size then fs.(inodes := fs.inodes[i := fs.inodes[i].(size := size)]) else fs
  }

  /** What inode_write leaves, once it has set the size. */
  lemma {:induction false} WriteOutcome(s: Fs, t: Fs, s': Fs, i: nat, offset: nat, src: seq<Byte>, done: nat)
    requires Inv(s) && i in s.inodes && offset <= s.inodes[i].size && offset + |src| <= MAX_SIZE && done <= |src|
    requires Progress(s, t, i, offset, src, done) == Yes
    requires if done == |src| then s' == t else Turn(t, s', i, offset + done, [], false) == Yes
    ensures (done == |src| <==> Fits(s, i, offset, |src|)) && i in s'.inodes
    ensures var end := Grow(s', i, offset + done);
            && Sized(end) && (Inv(end) <==> Fits(s, i, offset, |src|))
            && Content(end, i) == Written(Content(s, i), offset, src[..done])
            && forall j | j != i :: Content(end, j) == Overlaid(s, i, j, offset, src[..done])
  {
    WriteFits(s, t, i, offset, src, done, s');
    if done == |src| {
      WriteEnds(s, t, i, offset, src[..done]);
    } else {
      InRange(offset + done, offset, |src|);
      ShortKeys(s, t, s', i, offset, src[..done]);
      ShortEnds(s, t, s', i, offset, src[..done]);
    }
  }

  lemma {:induction false} WriteIndirs(s: Fs, t: Fs, s': Fs, i: nat, offset: nat, src: seq<Byte>, done: nat)
    requires i in s.inodes && done <= |src| && Progress(s, t, i, offset, src, done) == Yes
    requires if done == |src| then s' == t else Turn(t, s', i, offset + done, [], false) == Yes
    ensures i in s'.inodes && SameIndirs(s, Grow(s', i, offset + done))
  {
    if done < |src| {
      ExhaustedIndirs(t, s', i, (offset + done) / BLK);
    }
  }

  lemma {:induction false} ExhaustedIndirs(t: Fs, s': Fs, i: nat, n: nat)
    requires Exhausted(t, s', i, n)
    ensures SameIndirs(t, s')
  {
  }

  lemma {:induction false} ShortKeys(s: Fs, t: Fs, s': Fs, i: nat, o: nat, done: seq<Byte>)
    requires i in s.inodes && Writing(s, t, i, o, done) && Exhausted(t, s', i, (o + |done|) / BLK)
    ensures i in s'.inodes
  {
  }

  lemma {:induction false} WriteFits(s: Fs, t: Fs, i: nat, offset: nat, src: seq<Byte>, done: nat, s': Fs)
    requires Sized(s) && Sized(t) && done <= |src| && Writing(s, t, i, offset, src[..done])
    requires BalancedFrom(s, t, i, offset / BLK, Blocks(offset + done))
    requires if done == |src| then s' == t else Exhausted(t, s', i, (offset + done) / BLK)
    ensures done == |src| <==> Fits(s, i, offset, |src|)
  {
    var lo, hi := offset / BLK, Blocks(offset + |src|);
    FullUnused(t);
    assert Balanced(s, t, i, lo, hi);
    if done < |src| {
      assert (offset + done) / BLK in Gaps(t, i, lo, hi);
    } else if |src| > 0 {
      forall n | lo <= n < hi ensures SlotAt(t, i, n).Some? {
        var k := if n * BLK < offset then offset else n * BLK;
        assert offset <= k < offset + |src| && k / BLK == n;
      }
      assert Gaps(t, i, lo, hi) == {};
    }
  }

  /** A short write stops at a slot without a block, when the slots it filled
      before have taken all blocks that were left. */
  ghost predicate StoppedAt(fs: Fs, i: nat, offset: nat, done: nat)
    requires Sized(fs)
  {
    var n := (offset + done) / BLK;
    && (offset + done) % BLK == 0 && SlotAt(fs, i, n).None?
    && |Gaps(fs, i, offset / BLK, n)| == |Unused(fs)|
  }

  lemma {:induction false} ShortAligned(s: Fs, t: Fs, s': Fs, i: nat, offset: nat, done: seq<Byte>)
    requires Inv(s) && i in s.inodes && offset <= s.inodes[i].size && offset + |done| < MAX_SIZE
    requires Writing(s, t, i, offset, done) && Exhausted(t, s', i, (offset + |done|) / BLK)
    ensures (offset + |done|) % BLK == 0
  {
    var off := offset + |done|;
    assert done != [] ==> SlotAt(t, i, (off - 1) / BLK).Some?;
    FilledSlot(s, i, off / BLK);
  }

  lemma {:induction false} FilledSlot(fs: Fs, i: nat, n: nat)
    requires Inv(fs) && i in fs.inodes && n < SLOTS
    ensures n * BLK < fs.inodes[i].size ==> SlotAt(fs, i, n).Some?
  {
    assert Filled(fs, i) && SlotOk(fs, i, n);
  }

  lemma {:induction false} ShortStops(s: Fs, t: Fs, s': Fs, i: nat, offset: nat, src: seq<Byte>, done: nat)
    requires Inv(s) && i in s.inodes && offset <= s.inodes[i].size && offset + |src| <= MAX_SIZE && done < |src|
    requires Progress(s, t, i, offset, src, done) == Yes && Turn(t, s', i, offset + done, [], false) == Yes
    ensures StoppedAt(s, i, offset, done)
  {
    ShortAligned(s, t, s', i, offset, src[..done]);
    var lo, n := offset / BLK, (offset + done) / BLK;
    assert Blocks(offset + done) == n;
    FullUnused(t);
    assert Balanced(s, t, i, lo, n);
    forall m | lo <= m < n ensures SlotAt(t, i, m).Some? {
      var k := if m * BLK < offset then offset else m * BLK;
      assert offset <= k < offset + done && k / BLK == m;
    }
    assert Gaps(t, i, lo, n) == {};
  }

  /** After a short write the bytes that were written are there, and the size
      does not reach the slot with the error code. */
  lemma {:induction false} ShortEnds(s: Fs, t: Fs, s': Fs, i: nat, o: nat, done: seq<Byte>)
    requires Inv(s) && i in s.inodes && o <= s.inodes[i].size && o + |done| <= MAX_SIZE && Writing(s, t, i, o, done)
    requires Exhausted(t, s', i, (o + |done|) / BLK) && i in s'.inodes
    ensures var grown := Grow(s', i, o + |done|);
            && Sized(grown) && !Inv(grown) && Content(grown, i) == Written(Content(s, i), o, done)
            && forall j | j != i :: Content(grown, j) == Overlaid(s, i, j, o, done)
  {
    var n := (o + |done|) / BLK;
    NoSpaceSlot(t, i, n);
    var grown := Grow(s', i, o + |done|);
    SameBlocks(s', grown);
    assert OneSlotAt(t, s', i, n, NO_SPACE, i, n);
    assert !SlotOk(grown, i, n);
    SameSizes(t, s', i, n);
    forall j, k: nat ensures ByteAt(grown, j, k) == ByteAt(t, j, k) {
      NoSpaceByte(t, s', i, n, j, k);
      assert SlotAt(grown, j, k / BLK) == SlotAt(s', j, k / BLK);
    }
    BytesWritten(s, t, grown, i, o, done);
  }

  /** The error code in a slot reads as no block. */
  lemma {:induction false} NoSpaceByte(t: Fs, s': Fs, i: nat, n: nat, j: nat, k: nat)
    requires Exhausted(t, s', i, n) && OneSlot(t, s', i, n, NO_SPACE)
    ensures ByteAt(s', j, k) == ByteAt(t, j, k)
  {
    assert OneSlotAt(t, s', i, n, NO_SPACE, j, k / BLK);
    if SameSlot(t, i, n, j, k / BLK) {
      SharedEmpty(t, i, n, j);
    }
  }

  /** The bytes of file `j` once `done` was written to file `i` from `o` on: those
      in slots that the two share are new. */
  function Overlaid(fs: Fs, i: nat, j: nat, o: nat, done: seq<Byte>): (c: seq<Byte>)
    requires Sized(fs)
    ensures |c| == SizeOf(fs, j)
  {
    seq(SizeOf(fs, j), k requires 0 <= k =>
      if o <= k < o + |done| && SameSlot(fs, i, k / BLK, j, k / BLK) then done[k - o] else ByteAt(fs, j, k))
  }

  /** Nothing is shared when one of the two files has an indirect block, or when
      the write or the other file ends within the direct slots. */
  lemma {:induction false} NotOverlaid(fs: Fs, i: nat, j: nat, o: nat, done: seq<Byte>)
    requires Sized(fs) && i in fs.inodes && j in fs.inodes && j != i
    requires || fs.inodes[i].indir != 0 || fs.inodes[j].indir != 0
             || o + |done| <= DIRECT * BLK || fs.inodes[j].size <= DIRECT * BLK
    ensures Overlaid(fs, i, j, o, done) == Content(fs, j)
  {
    var c, d := Overlaid(fs, i, j, o, done), Content(fs, j);
    forall k | 0 <= k < |d| ensures c[k] == d[k] {
      if k < DIRECT * BLK {
        assert k / BLK < DIRECT;
      }
    }
  }

  /** The same bytes as in `t`, with the size set. */
  lemma {:induction false} BytesWritten(s: Fs, t: Fs, s': Fs, i: nat, o: nat, done: seq<Byte>)
    requires Sized(s) && Sized(s') && i in s.inodes && o <= s.inodes[i].size && Writing(s, t, i, o, done)
    requires s'.inodes.Keys == s.inodes.Keys &&
             s'.inodes[i].size == if s.inodes[i].size < o + |done| then o + |done| else s.inodes[i].size
    requires forall j | j in s.inodes && j != i :: s'.inodes[j].size == s.inodes[j].size
    requires forall j, k: nat :: ByteAt(s', j, k) == ByteAt(t, j, k)
    ensures Content(s', i) == Written(Content(s, i), o, done)
    ensures forall j | j != i :: Content(s', j) == Overlaid(s, i, j, o, done)
  {
    var c, w := Content(s', i), Written(Content(s, i), o, done);
    forall k | 0 <= k < |c| ensures c[k] == w[k] {
      assert ByteAt(s', i, k) == ByteAt(t, i, k);
      assert ByteWritten(s, t, i, o, done, i, k);
    }
    forall j | j != i ensures Content(s', j) == Overlaid(s, i, j, o, done) {
      OtherWritten(s, t, s', i, o, done, j);
    }
  }

  lemma {:induction false} OtherWritten(s: Fs, t: Fs, s': Fs, i: nat, o: nat, done: seq<Byte>, j: nat)
    requires Sized(s) && Sized(s') && Writing(s, t, i, o, done) && SizeOf(s', j) == SizeOf(s, j)
    requires forall j, k: nat :: ByteAt(s', j, k) == ByteAt(t, j, k)
    ensures Content(s', j) == Overlaid(s, i, j, o, done)
  {
    var c, w := Content(s', j), Overlaid(s, i, j, o, done);
    forall k | 0 <= k < |c| ensures c[k] == w[k] {
      assert ByteAt(s', j, k) == ByteAt(t, j, k);
      assert ByteWritten(s, t, i, o, done, j, k);
    }
  }

  lemma {:induction false} SameSizes(t: Fs, s': Fs, i: nat, n: nat)
    requires Exhausted(t, s', i, n)
    ensures s'.inodes.Keys == t.inodes.Keys && forall j | j in t.inodes :: s'.inodes[j].size == t.inodes[j].size
  {
  }

  /** Below the size there is a block to read. */
  lemma {:induction false} ReadReady(fs: Fs, i: nat, off: nat)
    requires Inv(fs) && i in fs.inodes && off < fs.inodes[i].size
    ensures off / BLK < SLOTS && BlkOf(fs, i, off / BLK) != 0 && BlkOf(fs, i, off / BLK) < |fs.blk|
  {
    assert InodeOk(fs, i) && Filled(fs, i);
    assert off / BLK * BLK <= off;
    assert SlotOk(fs, i, off / BLK);
  }

  lemma {:induction false} PartRead(fs: Fs, i: nat, off: nat, m: nat)
    requires Inv(fs) && i in fs.inodes && off + m <= fs.inodes[i].size && m > 0 && off % BLK + m <= BLK
    ensures BlkOf(fs, i, off / BLK) < |fs.blk|
    ensures fs.blk[BlkOf(fs, i, off / BLK)][off % BLK..off % BLK + m] == Content(fs, i)[off..off + m]
  {
    ReadReady(fs, i, off);
    var part, c := fs.blk[BlkOf(fs, i, off / BLK)][off % BLK..off % BLK + m], Content(fs, i)[off..off + m];
    forall x | 0 <= x < m ensures part[x] == c[x] {
      InBlock(off, m, off + x);
    }
  }

  datatype WriteResult = Wrote(n: nat) | EINVAL | EFBIG | ENOSPC_ERROR

  function Count(res: WriteResult): nat {
    if res.Wrote? then res.n else 0
  }

  lemma {:induction false} InRange(off: nat, offset: nat, count: nat)
    requires off < offset + count <= MAX_SIZE
    ensures off / BLK < SLOTS
  {
  }

  /** Files keep their sizes and indirect blocks, and no slot loses its block. */
  ghost predicate SameFiles(fs: Fs, fs': Fs) {
    && Sized(fs) && Sized(fs') && fs'.sb == fs.sb && fs'.inodes.Keys == fs.inodes.Keys
    && (forall j | j in fs.inodes ::
          fs'.inodes[j].size == fs.inodes[j].size && fs'.inodes[j].indir == fs.inodes[j].indir)
    && (forall j, m | SlotAt(fs, j, m).Some? :: SlotAt(fs', j, m).Some?)
  }

  /** Byte `k` of file `j` after `part` was written to file `i` from `o` on. */
  ghost predicate ByteWritten(fs: Fs, fs': Fs, i: nat, o: nat, part: seq<Byte>, j: nat, k: nat)
    requires Sized(fs) && Sized(fs')
  {
    ByteAt(fs', j, k) ==
    if o <= k < o + |part| && SameSlot(fs, i, k / BLK, j, k / BLK) then part[k - o] else ByteAt(fs, j, k)
  }

  /** `part` was written at `off`, and nothing else. */
  ghost predicate PartWritten(fs: Fs, fs': Fs, i: nat, off: nat, part: seq<Byte>) {
    && SameFiles(fs, fs') && SlotAt(fs', i, off / BLK).Some? && off % BLK + |part| <= BLK
    && forall j, k: nat :: ByteWritten(fs, fs', i, off, part, j, k)
  }

  lemma {:induction false} PartDone(s: Fs, s1: Fs, s2: Fs, i: nat, off: nat, part: seq<Byte>)
    requires Slotted(s, s1, i, off / BLK) && SlotAt(s1, i, off / BLK).Some? && off % BLK + |part| <= BLK
    requires Sized(s2) && s2.sb == s1.sb && s2.inodes == s1.inodes
    requires forall j, m ::
               SlotAt(s2, j, m) ==
               if SameSlot(s1, i, off / BLK, j, m)
               then Some(Patched(SlotAt(s1, i, off / BLK).value, off % BLK, part)) else SlotAt(s1, j, m)
    ensures PartWritten(s, s2, i, off, part)
  {
    forall j, k: nat ensures ByteWritten(s, s2, i, off, part, j, k) {
      SlottedByte(s, s1, i, off / BLK, j, k);
      if SameSlot(s1, i, off / BLK, j, k / BLK) {
        SharedEmpty(s1, i, off / BLK, j);
      }
      PatchBytes(s1, s2, i, off, part, j, k);
    }
    forall j, m | SlotAt(s, j, m).Some? ensures SlotAt(s2, j, m).Some? {
      assert SlottedAt(s, s1, i, off / BLK, j, m);
    }
  }

  /** A block found or allocated for a slot reads as the slot did. */
  lemma {:induction false} SlottedByte(s: Fs, s1: Fs, i: nat, n: nat, j: nat, k: nat)
    requires Slotted(s, s1, i, n)
    ensures ByteAt(s1, j, k) == ByteAt(s, j, k)
    ensures forall x, m :: SameSlot(s1, i, x, j, m) <==> SameSlot(s, i, x, j, m)
  {
    assert SlottedAt(s, s1, i, n, j, k / BLK);
  }

  lemma {:induction false} PartStored(s: Fs, s1: Fs, s2: Fs, i: nat, off: nat, part: seq<Byte>, b: nat)
    requires DataFound(s, s1, i, off / BLK, b) && 0 < b < |s1.blk| && off % BLK + |part| <= BLK && Inv(s)
    requires s2 == Stored(s1, b, Patched(s1.blk[b], off % BLK, part))
    ensures Turn(s, s2, i, off, part, true) == Yes
  {
    SlotFound(s1, i, off / BLK);
    StoredOk(s1, i, off / BLK, Patched(s1.blk[b], off % BLK, part));
    SameUnused(s1, s2);
    PartDone(s, s1, s2, i, off, part);
    PartGaps(s, s1, s2, i, off / BLK, b);
  }

  lemma {:induction false} PartGaps(s: Fs, s1: Fs, s2: Fs, i: nat, n: nat, b: nat)
    requires Inv(s) && DataFound(s, s1, i, n, b) && Sized(s2) && b != 0
    requires forall j, m :: SlotAt(s2, j, m).None? <==> SlotAt(s1, j, m).None?
    ensures forall m | m != n :: SlotAt(s2, i, m).None? <==> SlotAt(s, i, m).None?
    ensures SlotAt(s, i, n).None? <==> BlkOf(s, i, n) == 0
  {
    assert SlotOk(s, i, n);
    forall m | m != n ensures SlotAt(s2, i, m).None? <==> SlotAt(s, i, m).None? {
      assert SlottedAt(s, s1, i, n, i, m);
    }
  }

  /** `done` has been written from `o` on. */
  ghost predicate Writing(fs: Fs, fs': Fs, i: nat, o: nat, done: seq<Byte>) {
    && Inv(fs') && SameFiles(fs, fs')
    && (forall k | o <= k < o + |done| :: SlotAt(fs', i, k / BLK).Some?)
    && forall j, k: nat :: ByteWritten(fs, fs', i, o, done, j, k)
  }

  lemma {:induction false} MoreWritten(s: Fs, t: Fs, s': Fs, i: nat, o: nat, done: seq<Byte>, part: seq<Byte>)
    requires Writing(s, t, i, o, done) && Inv(s') && PartWritten(t, s', i, o + |done|, part)
    ensures Writing(s, s', i, o, done + part)
  {
    var off := o + |done|;
    forall k | o <= k < o + |done + part| ensures SlotAt(s', i, k / BLK).Some? {
      if k >= off {
        InBlock(off, |part|, k);
      }
    }
    forall j, k: nat ensures ByteWritten(s, s', i, o, done + part, j, k) {
      MoreByte(s, t, s', i, o, done, part, j, k);
    }
  }

  lemma {:induction false} MoreByte(s: Fs, t: Fs, s': Fs, i: nat, o: nat, done: seq<Byte>, part: seq<Byte>, j: nat,
                                    k: nat)
    requires Writing(s, t, i, o, done) && PartWritten(t, s', i, o + |done|, part)
    ensures ByteWritten(s, s', i, o, done + part, j, k)
  {
    assert ByteWritten(s, t, i, o, done, j, k);
    assert ByteWritten(t, s', i, o + |done|, part, j, k);
    assert SameSlot(t, i, k / BLK, j, k / BLK) <==> SameSlot(s, i, k / BLK, j, k / BLK);
  }

  /** The size is set last: by then every block below it is there. */
  lemma {:induction false} WriteEnds(s: Fs, t: Fs, i: nat, o: nat, src: seq<Byte>)
    requires Inv(s) && i in s.inodes && o <= s.inodes[i].size && o + |src| <= MAX_SIZE && Writing(s, t, i, o, src)
    ensures var s' := Grow(t, i, o + |src|);
            && Inv(s') && Content(s', i) == Written(Content(s, i), o, src)
            && forall j | j != i :: Content(s', j) == Overlaid(s, i, j, o, src)
  {
    var s' := Grow(t, i, o + |src|);
    if t.inodes[i].size < o + |src| {
      GrowOk(s, t, i, o, src);
    }
    SameBlocks(t, s');
    forall j, k: nat ensures ByteAt(s', j, k) == ByteAt(t, j, k) {}
    BytesWritten(s, t, s', i, o, src);
  }

  lemma {:induction false} SameBlocks(t: Fs, s': Fs)
    requires Sized(t) && Sized(s') && s'.blk == t.blk && s'.inodes.Keys == t.inodes.Keys
    requires forall j | j in t.inodes :: s'.inodes[j].dir == t.inodes[j].dir && s'.inodes[j].indir == t.inodes[j].indir
    ensures forall j, m :: SlotAt(s', j, m) == SlotAt(t, j, m) && BlkOf(s', j, m) == BlkOf(t, j, m)
  {
  }

  lemma {:induction false} GrowOk(s: Fs, t: Fs, i: nat, o: nat, src: seq<Byte>)
    requires Inv(s) && i in s.inodes && o <= s.inodes[i].size < o + |src| <= MAX_SIZE && Writing(s, t, i, o, src)
    ensures Inv(t.(inodes := t.inodes[i := t.inodes[i].(size := o + |src|)]))
  {
    var s' := t.(inodes := t.inodes[i := t.inodes[i].(size := o + |src|)]);
    SameBlocks(t, s');
    forall j, m ensures SlotOk(s', j, m) {
      assert SlotOk(t, j, m);
    }
    forall j | j in s'.inodes ensures InodeOk(s', j) && Filled(s', j) {
      assert InodeOk(t, j) && Filled(t, j);
      if j == i {
        forall n | 0 <= n < SLOTS && n * BLK < o + |src| ensures BlkOf(s', i, n) != 0 {
          if n * BLK >= s.inodes[i].size {
            assert SlotAt(t, i, (n * BLK) / BLK).Some?;
          } else {
            assert BlkOf(t, i, n) != 0;
          }
        }
      }
    }
    forall b | t.sb.dataStart <= b < t.sb.nbBlk ensures BlockOk(s', b) {
      assert BlockOk(t, b);
    }
  }

  lemma {:induction false} IndirReady(fs: Fs, i: nat)
    requires Inv(fs) && i in fs.inodes
    ensures fs.inodes[i].indir < |fs.blk|
  {
    assert InodeOk(fs, i);
  }

  /** Slot `n` of file `i` may have been given a clear block; nothing else
      changed. */
  ghost predicate Slotted(fs: Fs, fs': Fs, i: nat, n: nat) {
    && Sized(fs) && Sized(fs') && fs'.sb == fs.sb && fs'.inodes.Keys == fs.inodes.Keys
    && (forall j | j in fs.inodes ::
          fs'.inodes[j].size == fs.inodes[j].size && fs'.inodes[j].indir == fs.inodes[j].indir)
    && forall j, m :: SlottedAt(fs, fs', i, n, j, m)
  }

  ghost predicate SlottedAt(fs: Fs, fs': Fs, i: nat, n: nat, j: nat, m: nat)
    requires Sized(fs) && Sized(fs')
  {
    SlotAt(fs', j, m) ==
    if SameSlot(fs, i, n, j, m) && SlotAt(fs, j, m).None? then Some(Zero()) else SlotAt(fs, j, m)
  }

  /** What a scan of bitmap block `i` says about the data blocks. */
  lemma {:induction false} ScannedBits(fs: Fs, i: nat, bm: Block, bit: int)
    requires Sized(fs) && i < fs.sb.nbDbm && bm == fs.blk[fs.sb.dbmStart + i] && -1 <= bit < BITS
    requires bit == -1 ==> forall j | 0 <= j < BITS :: BitAt(bm, j)
    requires bit >= 0 ==> !BitAt(bm, bit) && forall j | 0 <= j < bit :: BitAt(bm, j)
    ensures var end := fs.sb.dataStart + BITS * i + (if bit == -1 then BITS else bit);
            && (forall x | fs.sb.dataStart + BITS * i <= x < end && x < fs.sb.nbBlk :: Used(fs, x))
            && (bit >= 0 && end < fs.sb.nbBlk ==> !Used(fs, end))
  {
    var start := fs.sb.dataStart + BITS * i;
    var end := start + (if bit == -1 then BITS else bit);
    forall x | start <= x < end && x < fs.sb.nbBlk ensures Used(fs, x) {
      ScannedBit(fs, i, x - start);
    }
    if bit >= 0 && end < fs.sb.nbBlk {
      ScannedBit(fs, i, bit);
    }
  }

  lemma {:induction false} ScannedBit(fs: Fs, i: nat, j: nat)
    requires Sized(fs) && i < fs.sb.nbDbm && j < BITS && fs.sb.dataStart + BITS * i + j < fs.sb.nbBlk
    ensures Used(fs, fs.sb.dataStart + BITS * i + j) <==> BitAt(fs.blk[fs.sb.dbmStart + i], j)
  {
    BitPlace(fs.sb, i, j);
  }

  lemma {:induction false} BitPlace(sb: Super, i: nat, j: nat)
    requires j < BITS
    ensures var x := sb.dataStart + BITS * i + j; BmBlk(sb, x) == sb.dbmStart + i && BmBit(sb, x) == j
  {
  }
}
