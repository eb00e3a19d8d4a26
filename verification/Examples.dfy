/** Small runs in which the code does not do what one would expect of it. */
module Examples {
  import opened Common
  import opened Bitmap
  import opened FileLayout
  import opened Files
  import T = Truncation

  const EMPTY := Inode(0, seq(DIRECT, _ => 0), 0)

  /** A disk with `data` data blocks and two empty files, 2 and 3. */
  function EmptyDisk(data: nat): Fs {
    Fs(Super(1, 2, 1, 3, 3 + data), seq(3 + data, _ => Zero()), map[2 := EMPTY, 3 := EMPTY], seq(3 + data, _ => Free))
  }

  lemma {:induction false} EmptyDiskOk(data: nat)
    requires data <= BITS
    ensures Inv(EmptyDisk(data)) && |Unused(EmptyDisk(data))| == data
    ensures forall i, n :: BlkOf(EmptyDisk(data), i, n) == 0
  {
    var fs := EmptyDisk(data);
    forall i: nat, n: nat ensures BlkOf(fs, i, n) == 0 {
      if DIRECT <= n < SLOTS {
        ZeroPtr(n - DIRECT);
      }
    }
    forall x | fs.sb.dataStart <= x < fs.sb.nbBlk ensures !Used(fs, x) {
      ZeroBit(BmBit(fs.sb, x));
    }
    assert Unused(fs) == Ints(3, data);
  }

  lemma {:induction false} ZeroBit(k: nat)
    requires k < BITS
    ensures !BitAt(Zero(), k)
  {
    NoBit(k % 8);
  }

  lemma {:induction false} NoBit(k: nat)
    ensures !Bit(0, k)
  {
    if k > 0 {
      NoBit(k - 1);
    }
  }

  /** The numbers from `lo` on, `n` of them. */
  ghost function Ints(lo: nat, n: nat): (r: set<nat>)
    ensures |r| == n && forall x :: x in r <==> lo <= x < lo + n
  {
    if n == 0 then {} else Ints(lo, n - 1) + {lo + n - 1}
  }

  /** All slots of a file are empty, so a write needs a block for each. */
  lemma {:induction false} EmptyGaps(data: nat, hi: nat)
    requires data <= BITS
    ensures Inv(EmptyDisk(data)) && |Gaps(EmptyDisk(data), 2, 0, hi)| == hi
  {
    EmptyDiskOk(data);
    assert Gaps(EmptyDisk(data), 2, 0, hi) == Ints(0, hi);
  }

  lemma {:induction false} RoomFor(blocks: nat)
    requires 0 < blocks <= 64
    ensures Inv(EmptyDisk(64)) && Fits(EmptyDisk(64), 2, 0, (blocks - 1) * BLK + 1)
  {
    EmptyDiskOk(64);
    EmptyGaps(64, blocks);
    assert Blocks((blocks - 1) * BLK + 1) == blocks;
  }

  method NewDisk(data: nat) returns (v: Volume)
    ensures fresh(v) && v.S() == EmptyDisk(data)
  {
    v := new Volume(Super(1, 2, 1, 3, 3 + data), seq(3 + data, _ => Zero()), map[2 := EMPTY, 3 := EMPTY],
                    seq(3 + data, _ => Free));
  }

  /** Two blocks are written to a disk with room for one: an error code takes
      the place of a block number, and the disk is not in order any more. */
  method FullDisk() returns (v: Volume, res: Option<nat>)
    ensures res.None? && Sized(v.S()) && BlkOf(v.S(), 2, 1) == NO_SPACE && !Inv(v.S())
  {
    ghost var s := EmptyDisk(1);
    EmptyDiskOk(1);
    v := NewDisk(1);
    var b := v.GetData(2, 0);
    FullUnused(s);
    ghost var t := v.S();
    FullUnused(t);
    assert SlottedAt(s, t, 2, 0, 2, 1);
    assert SlotOk(t, 2, 1);
    res := v.GetData(2, 1);
    assert !SlotOk(v.S(), 2, 1);
  }

  /** File 2 gets thirteen blocks. The number of the last one is stored in block
      0, so file 3 has that block, too. */
  method SharedBlock() returns (v: Volume)
    ensures fresh(v) && Inv(v.S()) && SizeOf(v.S(), 2) == DIRECT * BLK + 1
    ensures 2 in v.inodes && 3 in v.inodes && v.inodes[2].indir == 0 && v.inodes[3].indir == 0
    ensures BlkOf(v.S(), 3, DIRECT) == BlkOf(v.S(), 2, DIRECT) != 0
  {
    v := NewDisk(64);
    RoomFor(13);
    var res := v.Write(2, seq(DIRECT * BLK + 1, _ => 0), 0);
    BothHave(v.S());
  }

  lemma {:induction false} BothHave(fs: Fs)
    requires Inv(fs) && 2 in fs.inodes && 3 in fs.inodes && fs.inodes[2].indir == 0 && fs.inodes[3].indir == 0
    requires fs.inodes[2].size > DIRECT * BLK
    ensures BlkOf(fs, 3, DIRECT) == BlkOf(fs, 2, DIRECT) != 0
  {
    assert Filled(fs, 2);
    NoSharing(fs, 2, DIRECT, 3, DIRECT);
  }

  /** Then file 3, which never had a byte, is truncated: file 2 loses its last
      block. */
  method TruncateOther() returns (v: Volume)
    ensures Sized(v.S()) && SizeOf(v.S(), 2) == DIRECT * BLK + 1 && BlkOf(v.S(), 2, DIRECT) == 0 && !Inv(v.S())
  {
    v := SharedBlock();
    T.CoreOrderly(v.S());
    T.Truncate(v, 3, v.blk);
  }
}
