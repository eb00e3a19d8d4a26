/** The image builder (mkfs): what it streams into fresh blocks, the kernel
    reads back, and the image meets the kernel's allocation invariant. */
module Mkfs {
  import opened Common
  import opened Bitmap
  import opened FileLayout
  import opened Files

  /** Block 0 and the blocks past the last one given out are untouched. */
  ghost predicate Untouched(fs: Fs, last: nat)
    requires Sized(fs)
  {
    && Clear(fs.blk[0])
    && forall b | fs.sb.dataStart + last < b < fs.sb.nbBlk :: fs.own[b] == Free && fs.blk[b] == Zero()
  }

  // -------------------------------------------------------------------- giving out blocks

  function Assigned(fs: Fs, b: nat, o: Owner, data: Block): Fs
    requires Sized(fs) && InData(fs, b)
  {
    fs.(blk := fs.blk[b := data], own := fs.own[b := o])
  }

  lemma {:induction false} AssignedOk(fs: Fs, b: nat, o: Owner, data: Block)
    requires Shape(fs) && InData(fs, b) && fs.own[b] == Free
    ensures Shape(Assigned(fs, b, o, data)) && SameSlots(fs, Assigned(fs, b, o, data))
  {
    var fs' := Assigned(fs, b, o, data);
    forall i, n
      ensures SlotOk(fs', i, n) && BlkOf(fs', i, n) == BlkOf(fs, i, n) && SlotAt(fs', i, n) == SlotAt(fs, i, n)
    {
      assert SlotOk(fs, i, n);
      if i in fs.inodes {
        assert InodeOk(fs, i);
      }
    }
    forall i | i in fs.inodes ensures InodeOk(fs', i) {
      assert InodeOk(fs, i);
    }
  }

  function WithIndir(fs: Fs, i: nat, d: nat): Fs
    requires i in fs.inodes
  {
    fs.(inodes := fs.inodes[i := fs.inodes[i].(indir := d)])
  }

  /** A clear block becomes the indirect block of a file that has none. */
  lemma {:induction false} WithIndirOk(fs: Fs, i: nat, d: nat)
    requires Shape(fs) && i in fs.inodes && fs.inodes[i].indir == 0 && Clear(fs.blk[0])
    requires InData(fs, d) && fs.own[d] == Indir(i) && fs.blk[d] == Zero()
    ensures Shape(WithIndir(fs, i, d)) && SameSlots(fs, WithIndir(fs, i, d))
  {
    var fs' := WithIndir(fs, i, d);
    forall j: nat, n: nat
      ensures SlotOk(fs', j, n) && BlkOf(fs', j, n) == BlkOf(fs, j, n) && SlotAt(fs', j, n) == SlotAt(fs, j, n)
    {
      assert SlotOk(fs, j, n);
      if DIRECT <= n < SLOTS {
        ZeroPtr(n - DIRECT);
      }
    }
    forall j | j in fs'.inodes ensures InodeOk(fs', j) {
      assert InodeOk(fs, j);
    }
  }

  // ------------------------------------------------------------------------- streaming

  /** File `i` holds `done` in its first `n` slots, and nothing in the others. */
  ghost predicate Streamed(fs: Fs, i: nat, done: seq<Byte>, n: nat) {
    && Shape(fs) && i in fs.inodes && fs.inodes[i].size == |done| <= n * BLK && n <= SLOTS
    && (forall m: nat :: BlkOf(fs, i, m) != 0 <==> m < n)
    && (forall k: nat | k < |done| :: ByteAt(fs, i, k) == done[k])
    && (fs.inodes[i].indir != 0 <==> n > DIRECT)
  }

  lemma {:induction false} StreamedContent(fs: Fs, i: nat, done: seq<Byte>, n: nat)
    requires Streamed(fs, i, done, n) && (n > 0 ==> |done| > (n - 1) * BLK)
    ensures Content(fs, i) == done && Filled(fs, i)
  {
    forall m | 0 <= m < SLOTS && m * BLK < |done| ensures BlkOf(fs, i, m) != 0 {
      assert m < n;
    }
  }

  function Sizes(fs: Fs, i: nat, size: nat): Fs
    requires i in fs.inodes
  {
    fs.(inodes := fs.inodes[i := fs.inodes[i].(size := size)])
  }

  /** Of the slots of file `i` only slot `n` changed, to block number `b`. */
  ghost predicate OwnSlot(fs: Fs, fs': Fs, i: nat, n: nat, b: nat) {
    && Sized(fs) && Sized(fs') && BlkOf(fs', i, n) == b
    && forall m | m != n :: BlkOf(fs', i, m) == BlkOf(fs, i, m) && SlotAt(fs', i, m) == SlotAt(fs, i, m)
  }

  /** One more block, holding `chunk`, in the next slot. */
  lemma {:induction false} StreamMore(fs: Fs, fs': Fs, i: nat, done: seq<Byte>, n: nat, b: nat, chunk: seq<Byte>)
    requires Streamed(fs, i, done, n) && |done| == n * BLK && n < SLOTS && 0 < |chunk| <= BLK
    requires Shape(fs') && OwnSlot(fs, fs', i, n, b) && b != 0 && SlotAt(fs', i, n) == Some(Patched(Zero(), 0, chunk))
    requires fs'.inodes.Keys == fs.inodes.Keys && (fs'.inodes[i].indir != 0 <==> n >= DIRECT)
    ensures Streamed(Sizes(fs', i, |done| + |chunk|), i, done + chunk, n + 1)
  {
    var fs'' := Sizes(fs', i, |done| + |chunk|);
    SizesOk(fs', i, |done| + |chunk|);
    forall m: nat ensures BlkOf(fs'', i, m) != 0 <==> m < n + 1 {
      assert BlkOf(fs, i, m) != 0 <==> m < n;
    }
    forall k: nat | k < |done + chunk| ensures ByteAt(fs'', i, k) == (done + chunk)[k] {
      assert k < |done| ==> ByteAt(fs, i, k) == done[k];
      StreamByte(fs, fs', i, done, n, b, chunk, k);
    }
  }

  lemma {:induction false} StreamByte(fs: Fs, fs': Fs, i: nat, done: seq<Byte>, n: nat, b: nat, chunk: seq<Byte>,
                                      k: nat)
    requires |done| == n * BLK && 0 < |chunk| <= BLK && k < |done + chunk|
    requires OwnSlot(fs, fs', i, n, b) && SlotAt(fs', i, n) == Some(Patched(Zero(), 0, chunk))
    requires k < |done| ==> ByteAt(fs, i, k) == done[k]
    ensures ByteAt(fs', i, k) == (done + chunk)[k]
  {
    if k < |done| {
      assert k / BLK < n;
    } else {
      InBlock(n * BLK, |chunk|, k);
    }
  }

  lemma {:induction false} SizesOk(fs: Fs, i: nat, size: nat)
    requires Shape(fs) && i in fs.inodes && size <= MAX_SIZE
    ensures Shape(Sizes(fs, i, size)) && SameSlots(fs, Sizes(fs, i, size))
  {
    var fs' := Sizes(fs, i, size);
    SameBlocks(fs, fs');
    forall j, n ensures SlotOk(fs', j, n) {
      assert SlotOk(fs, j, n);
    }
    forall j | j in fs'.inodes ensures InodeOk(fs', j) {
      assert InodeOk(fs, j);
    }
  }

  // -------------------------------------------------------------------------- the builder

  /** The other files of the image are as they were. */
  ghost predicate OthersKept(fs: Fs, fs': Fs, i: nat) {
    && Sized(fs) && Sized(fs') && fs'.sb == fs.sb
    && (forall j | j != i :: j in fs.inodes <==> j in fs'.inodes)
    && (forall j | j in fs.inodes && j != i :: fs'.inodes[j] == fs.inodes[j])
    && (forall x | 0 <= x < fs.sb.dataStart :: fs'.blk[x] == fs.blk[x])
    && (forall j, n | j != i :: BlkOf(fs', j, n) == BlkOf(fs, j, n) && SlotAt(fs', j, n) == SlotAt(fs, j, n))
  }

  lemma {:induction false} OthersTrans(s: Fs, t: Fs, s': Fs, i: nat)
    requires OthersKept(s, t, i) && OthersKept(t, s', i)
    ensures OthersKept(s, s', i)
  {
  }

  class Builder {
    const sb: Super
    var blk: seq<Block>
    var inodes: map<nat, Inode>
    var blkAllocated: nat
    var iAllocated: nat
    ghost var own: seq<Owner>

    ghost function S(): Fs
      reads this
    {
      Fs(sb, blk, inodes, own)
    }

    /** The image with the inode that is being filled. */
    ghost function With(i: nat, x: Inode): Fs
      reads this
    {
      Fs(sb, blk, inodes[i := x], own)
    }

    /** alloc_block: the next block, as long as one bitmap block is enough. */
    method AllocBlock() returns (b: Option<nat>)
      requires sb.dataStart <= sb.nbBlk
      modifies this`blkAllocated
      ensures blkAllocated == old(blkAllocated) + 1 && (b.Some? <==> blkAllocated < Limit(sb))
      ensures b.Some? <==> blkAllocated < 32768 && sb.dataStart + blkAllocated < sb.nbBlk
      ensures b.Some? ==> b.value == sb.dataStart + blkAllocated
    {
      blkAllocated := blkAllocated + 1;
      if blkAllocated >= BITS || blkAllocated >= sb.nbBlk - sb.dataStart {
        return None;
      }
      return Some(blkAllocated + sb.dataStart);
    }

    /** The block for `chunk`, written; the rest of it stays zero. */
    method PutChunk(chunk: seq<Byte>, ghost o: Owner, ghost i: nat, ghost x: Inode) returns (b: Option<nat>)
      requires |chunk| <= BLK && Shape(With(i, x)) && Untouched(With(i, x), blkAllocated)
      modifies this`blkAllocated, this`blk, this`own
      ensures blkAllocated == old(blkAllocated) + 1 && (b.Some? <==> blkAllocated < Limit(sb))
      ensures b.Some? ==>
                && InData(old(With(i, x)), b.value) && b.value == sb.dataStart + blkAllocated
                && old(own)[b.value] == Free
                && With(i, x) == Assigned(old(With(i, x)), b.value, o, Patched(Zero(), 0, chunk))
                && Shape(With(i, x)) && SameSlots(old(With(i, x)), With(i, x)) && Untouched(With(i, x), blkAllocated)
    {
      ghost var s := With(i, x);
      b := AllocBlock();
      if b.Some? {
        assert blk[b.value] == Zero();
        AssignedOk(s, b.value, o, Patched(Zero(), 0, chunk));
        blk := blk[b.value := Patched(blk[b.value], 0, chunk)];
        own := own[b.value := o];
      }
    }

    /** A clear block for the indirect slots, if slot `n` is one of them and the
        file has none yet. */
    method NeedIndir(i: nat, x: Inode, n: nat, ghost b: nat) returns (y: Option<Inode>)
      requires Shape(With(i, x)) && Untouched(With(i, x), blkAllocated) && InData(With(i, x), b) && own[b] != Free
      requires blkAllocated < Limit(sb)
      modifies this`blkAllocated, this`blk, this`own
      ensures blkAllocated == old(blkAllocated) + (if n >= DIRECT && x.indir == 0 then 1 else 0)
      ensures y.Some? <==> blkAllocated < Limit(sb)
      ensures y.Some? ==>
                && y.value == x.(indir := y.value.indir) && (n >= DIRECT ==> y.value.indir != 0)
                && (n < DIRECT ==> y.value == x)
                && Shape(With(i, y.value)) && SameSlots(old(With(i, x)), With(i, y.value))
                && Untouched(With(i, y.value), blkAllocated) && OthersKept(old(With(i, x)), With(i, y.value), i)
                && own[b] == old(own)[b] && blk[b] == old(blk)[b]
    {
      if n < DIRECT || x.indir != 0 {
        return Some(x);
      }
      var d := PutChunk([], Indir(i), i, x);
      if d.None? {
        return None;
      }
      assert Patched(Zero(), 0, []) == Zero();
      WithIndirOk(With(i, x), i, d.value);
      y := Some(x.(indir := d.value));
      assert With(i, y.value) == WithIndir(With(i, x), i, d.value);
    }

    /** The block number goes into the inode or into the indirect block, and
        the file grows. */
    method PlaceBlock(i: nat, x: Inode, n: nat, b: nat, size: nat) returns (y: Inode)
      requires Sized(With(i, x)) && n < SLOTS && b < TWO32 && (n >= DIRECT ==> x.indir < |blk|)
      modifies this`blk
      ensures With(i, y) == Sizes(SetSlot(old(With(i, x)), i, n, b), i, size)
    {
      assert |x.dir| == DIRECT by {
        assert With(i, x).inodes[i] == x;
      }
      y := x.(size := size);
      if n >= DIRECT {
        blk := blk[x.indir := SetPtr(blk[x.indir], n - DIRECT, b)];
      } else {
        y := y.(dir := x.dir[n := b]);
      }
      assert inodes[i := y] == inodes[i := x][i := y];
      assert n < DIRECT ==> inodes[i := y] == inodes[i := x][i := x.(dir := x.dir[n := b])][i := y];
    }

    /** The block with `chunk`, and the indirect block if it is needed. */
    method Prepare(i: nat, x: Inode, n: nat, chunk: seq<Byte>, ghost done: seq<Byte>, ghost s: Fs)
      returns (b: Option<nat>, y: Inode, ghost s1: Fs)
      requires Grown(s, With(i, x), i, done, n, blkAllocated) == Yes
      requires |done| == n * BLK && n < SLOTS && 0 < |chunk| <= BLK
      modifies this`blkAllocated, this`blk, this`own
      ensures b.Some? <==> old(blkAllocated) + (if n == DIRECT then 2 else 1) < Limit(sb)
      ensures b.Some? ==>
                && ReadyIs(old(With(i, x)), s1, With(i, y), i, done, n, b.value, chunk) == Yes
                && Sized(With(i, y)) && Untouched(With(i, y), blkAllocated)
                && blkAllocated == old(blkAllocated) + (if n == DIRECT then 2 else 1)
    {
      y := x;
      assert x.indir != 0 <==> n > DIRECT by {
        assert With(i, x).inodes[i] == x;
      }
      b := PutChunk(chunk, Data(i, n), i, x);
      s1 := With(i, x);
      if b.Some? {
        var z := NeedIndir(i, x, n, b.value);
        if z.None? {
          return None, y, s1;
        }
        y := z.value;
      }
    }

    /** One turn of the loop of alloc_file; `s` is the image before. */
    method StreamBlock(i: nat, x: Inode, n: nat, chunk: seq<Byte>, ghost done: seq<Byte>, ghost s: Fs)
      returns (y: Option<Inode>)
      requires Grown(s, With(i, x), i, done, n, blkAllocated) == Yes
      requires |done| == n * BLK && n < SLOTS && 0 < |chunk| <= BLK
      modifies this`blkAllocated, this`blk, this`own
      ensures y.Some? <==> old(blkAllocated) + (if n == DIRECT then 2 else 1) < Limit(sb)
      ensures y.Some? ==>
                && blkAllocated == old(blkAllocated) + (if n == DIRECT then 2 else 1)
                && Grown(s, With(i, y.value), i, done + chunk, n + 1, blkAllocated) == Yes
    {
      ghost var was := With(i, x);
      var b, z, s1 := Prepare(i, x, n, chunk, done, s);
      if b.None? {
        return None;
      }
      StreamedBlock(s, was, s1, With(i, z), i, done, n, b.value, chunk, blkAllocated);
      var w := PlaceBlock(i, z, n, b.value, z.size + |chunk|);
      y := Some(w);
    }

    /** alloc_file: the loop starts with an empty inode. */
    method Stream(file: seq<Byte>, ino: nat, ghost s: Fs) returns (x: Option<Inode>)
      requires S() == s && Shape(s) && Untouched(s, blkAllocated) && blkAllocated < Limit(sb)
      requires ino !in inodes && |file| <= MAX_SIZE
      modifies this`blkAllocated, this`blk, this`own
      ensures x.Some? <==> old(blkAllocated) + Needed(|file|) < Limit(sb)
      ensures x.Some? ==>
                && blkAllocated == old(blkAllocated) + Needed(|file|)
                && Grown(s, With(ino, x.value), ino, file, Blocks(|file|), blkAllocated) == Yes
    {
      var y := Inode(0, seq(DIRECT, _ => 0), 0);
      NewFile(s, With(ino, y), ino, y, blkAllocated);
      x := StreamFrom(file, ino, y, s);
    }

    method StreamFrom(file: seq<Byte>, ino: nat, empty: Inode, ghost s: Fs) returns (x: Option<Inode>)
      requires Grown(s, With(ino, empty), ino, [], 0, blkAllocated) == Yes && blkAllocated < Limit(sb)
      requires |file| <= MAX_SIZE
      modifies this`blkAllocated, this`blk, this`own
      ensures x.Some? <==> old(blkAllocated) + Needed(|file|) < Limit(sb)
      ensures x.Some? ==>
                && blkAllocated == old(blkAllocated) + Needed(|file|)
                && Grown(s, With(ino, x.value), ino, file, Blocks(|file|), blkAllocated) == Yes
    {
      var y, done, n := empty, 0, 0;
      assert file[..0] == [];
      while done < |file|
        invariant 0 <= done <= |file| && n == Blocks(done) && (done < |file| ==> done == n * BLK)
        invariant blkAllocated == old(blkAllocated) + SlotBlocks(n) < Limit(sb)
        invariant Grown(s, With(ino, y), ino, file[..done], n, blkAllocated) == Yes
        decreases |file| - done
      {
        var z, c := StreamNext(file, ino, y, n, done, s);
        if z.None? {
          return None;
        }
        y, done, n := z.value, done + c, n + 1;
      }
      assert file[..done] == file;
      return Some(y);
    }

    /** The turn for the bytes of `file` from `done` on. */
    method StreamNext(file: seq<Byte>, ino: nat, x: Inode, n: nat, done: nat, ghost s: Fs)
      returns (y: Option<Inode>, c: nat)
      requires done < |file| <= MAX_SIZE && n == Blocks(done) && done == n * BLK
      requires Grown(s, With(ino, x), ino, file[..done], n, blkAllocated) == Yes
      modifies this`blkAllocated, this`blk, this`own
      ensures y.Some? <==> old(blkAllocated) + SlotBlocks(n + 1) - SlotBlocks(n) < Limit(sb)
      ensures 0 < c <= |file| - done && Blocks(done + c) == n + 1 && SlotBlocks(n + 1) <= Needed(|file|)
      ensures done + c < |file| ==> done + c == (n + 1) * BLK
      ensures y.Some? ==>
                && blkAllocated == old(blkAllocated) + SlotBlocks(n + 1) - SlotBlocks(n)
                && Grown(s, With(ino, y.value), ino, file[..done + c], n + 1, blkAllocated) == Yes
    {
      c := if |file| - done < BLK then |file| - done else BLK;
      NextChunk(done, c, |file|);
      y := StreamBlock(ino, x, n, file[done..done + c], file[..done], s);
      assert file[..done] + file[done..done + c] == file[..done + c];
    }

    /** alloc_file and alloc_inode: a new file with the bytes of `file`. */
    method AddFile(file: seq<Byte>) returns (i: Option<nat>)
      requires Shape(S()) && Untouched(S(), blkAllocated) && blkAllocated < Limit(sb)
      requires (iAllocated + 1) !in inodes && forall j | j in inodes :: Filled(S(), j)
      modifies this`blkAllocated, this`iAllocated, this`blk, this`own, this`inodes
      ensures i.Some? <==>
                && |file| <= MAX_SIZE && old(blkAllocated) + Needed(|file|) < Limit(sb)
                && old(iAllocated) + 1 < NB_INODES
      ensures i.Some? ==>
                && i.value == old(iAllocated) + 1 == iAllocated && blkAllocated == old(blkAllocated) + Needed(|file|)
                && Shape(S()) && Untouched(S(), blkAllocated) && (forall j | j in inodes :: Filled(S(), j))
                && inodes.Keys == old(inodes).Keys + {i.value} && Content(S(), i.value) == file
                && OthersKept(old(S()), S(), i.value)
    {
      if |file| > MAX_SIZE {
        return None;
      }
      ghost var s := S();
      var ino := iAllocated + 1;
      var x := Stream(file, ino, s);
      if x.None? || ino >= NB_INODES {
        return None;
      }
      FileDone(s, With(ino, x.value), ino, file, Blocks(|file|), blkAllocated);
      inodes, iAllocated := inodes[ino := x.value], ino;
      return Some(ino);
    }

    /** dir_add_entry: the entry goes behind the others in the root directory's
        block. */
    method AddEntry(name: seq<Byte>, id: nat) returns (ok: bool)
      requires Shape(S()) && Untouched(S(), blkAllocated) && (forall j | j in inodes :: Filled(S(), j)) && id < TWO32
      requires ROOT_INODE in inodes && inodes[ROOT_INODE].dir[0] == sb.dataStart != 0
      modifies this`blk, this`inodes
      ensures ok <==> |name| < MAXNAME && old(inodes)[ROOT_INODE].size + DIRENT <= BLK
      ensures ok ==>
                && Shape(S()) && Untouched(S(), blkAllocated) && (forall j | j in inodes :: Filled(S(), j))
                && inodes ==
                     old(inodes)[ROOT_INODE := old(inodes)[ROOT_INODE].(size := old(inodes)[ROOT_INODE].size + DIRENT)]
                && Content(S(), ROOT_INODE) == Content(old(S()), ROOT_INODE) + Entry(name, id)
                && OthersKept(old(S()), S(), ROOT_INODE)
    {
      if |name| >= MAXNAME || inodes[ROOT_INODE].size + DIRENT > BLK {
        return false;
      }
      var at := inodes[ROOT_INODE].size;
      EntryWritten(S(), at, Entry(name, id), blkAllocated);
      blk := blk[sb.dataStart := Patched(blk[sb.dataStart], at, Entry(name, id))];
      inodes := inodes[ROOT_INODE := inodes[ROOT_INODE].(size := at + DIRENT)];
      return true;
    }

    /** A fresh disk with the root directory in its first data block. */
    constructor (sb: Super)
      requires 0 < sb.ibmStart < sb.dbmStart < sb.dbmStart + sb.nbDbm <= sb.dataStart < sb.nbBlk <= MAX_BLKS
      requires sb.nbBlk <= sb.dataStart + BITS * sb.nbDbm
      ensures this.sb == sb && Valid() && Listed(S(), []) && blkAllocated == 0 && iAllocated == ROOT_INODE
      ensures inodes.Keys == {ROOT_INODE}
    {
      this.sb := sb;
      blk := seq(sb.nbBlk, _ => Zero());
      own := seq(sb.nbBlk, b => if b == sb.dataStart then Data(ROOT_INODE, 0) else Free);
      inodes := map[ROOT_INODE := Inode(0, [sb.dataStart] + seq(DIRECT - 1, _ => 0), 0)];
      blkAllocated, iAllocated := 0, ROOT_INODE;
      new;
      forall m | 0 <= m < PTRS ensures PtrAt(blk[0], m) == 0 {
        ZeroPtr(m);
      }
      forall i, n ensures SlotOk(S(), i, n) {}
    }

    /** The image between two files. */
    ghost predicate Valid()
      reads this
    {
      && Shape(S()) && Untouched(S(), blkAllocated) && blkAllocated < Limit(sb) && sb.nbDbm > 0 && Clear(blk[0])
      && (forall j | j in inodes :: Filled(S(), j))
      && forall i :: i in inodes <==> ROOT_INODE <= i <= iAllocated
    }

    /** write_bm on the inode bitmap, then on the block bitmap. */
    method WriteBm()
      requires Valid() && iAllocated < BITS
      modifies this`blk
      ensures Inv(S()) && (forall j :: Content(S(), j) == Content(old(S()), j)) && blk[0] == old(blk)[0]
      ensures Imaged(S(), blkAllocated)
    {
      ghost var fs := S();
      assert Buildup(fs, blkAllocated, iAllocated) == Yes;
      blk := blk[sb.ibmStart := Prefix(iAllocated + 1)];
      blk := blk[sb.dbmStart := Prefix(blkAllocated + 1)];
      BitmapsThere(fs, S(), blkAllocated, iAllocated);
    }

    /** One turn of the loop of main: the file and its directory entry. */
    method AddNamed(file: seq<Byte>, name: seq<Byte>, ghost names: seq<seq<Byte>>) returns (ok: bool)
      requires Valid() && Listed(S(), names) && iAllocated == ROOT_INODE + |names| < NB_INODES
      modifies this`blkAllocated, this`iAllocated, this`blk, this`own, this`inodes
      ensures ok <==>
                && |file| <= MAX_SIZE && old(blkAllocated) + Needed(|file|) < Limit(sb)
                && old(iAllocated) + 1 < NB_INODES && |name| < MAXNAME && (|names| + 1) * DIRENT <= BLK
      ensures ok ==>
                && Valid() && Listed(S(), names + [name]) && iAllocated == old(iAllocated) + 1
                && blkAllocated == old(blkAllocated) + Needed(|file|) && Content(S(), iAllocated) == file
                && forall j | ROOT_INODE < j < iAllocated :: Content(S(), j) == Content(old(S()), j)
    {
      ghost var s := S();
      var i := AddFile(file);
      if i.None? {
        return false;
      }
      ghost var t := S();
      SameContent(s, t, i.value, ROOT_INODE);
      ok := AddEntry(name, i.value);
      if ok {
        assert (names + [name])[..|names|] == names;
        BothKept(s, t, S(), i.value);
      }
    }

    /** mkfs for the given files. It succeeds exactly when they fit. */
    method Build(files: seq<seq<Byte>>, names: seq<seq<Byte>>) returns (ok: bool)
      requires |files| == |names| && Valid() && Listed(S(), []) && blkAllocated == 0 && iAllocated == ROOT_INODE
      modifies this`blkAllocated, this`iAllocated, this`blk, this`own, this`inodes
      ensures ok <==> Buildable(sb, files, names)
      ensures ok ==>
                && Inv(S()) && Clear(blk[0]) && (forall i :: i in inodes <==> ROOT_INODE <= i <= ROOT_INODE + |files|)
                && Imaged(S(), Total(files)) && Content(S(), ROOT_INODE) == Directory(names)
                && forall k | 0 <= k < |files| :: Content(S(), ROOT_INODE + 1 + k) == files[k]
    {
      var k := 0;
      while k < |files|
        invariant 0 <= k <= |files| && Built(files, names, k)
      {
        ok := BuildNext(files, names, k);
        if !ok {
          return false;
        }
        k := k + 1;
      }
      assert files[..k] == files && names[..k] == names;
      WriteBm();
      return true;
    }

    /** The first `k` files are in the image. */
    ghost predicate Built(files: seq<seq<Byte>>, names: seq<seq<Byte>>, k: nat)
      requires k <= |files| == |names|
      reads this
    {
      && Valid() && Listed(S(), names[..k]) && blkAllocated == Total(files[..k])
      && iAllocated == ROOT_INODE + k < NB_INODES && k * DIRENT <= BLK
      && (forall j | 0 <= j < k :: |files[j]| <= MAX_SIZE && |names[j]| < MAXNAME)
      && forall j | ROOT_INODE < j <= iAllocated :: Content(S(), j) == files[j - ROOT_INODE - 1]
    }

    method BuildNext(files: seq<seq<Byte>>, names: seq<seq<Byte>>, k: nat) returns (ok: bool)
      requires k < |files| == |names| && Built(files, names, k)
      modifies this`blkAllocated, this`iAllocated, this`blk, this`own, this`inodes
      ensures Buildable(sb, files, names) ==> ok
      ensures ok ==> Built(files, names, k + 1)
    {
      TotalMore(files, k);
      ok := AddNamed(files[k], names[k], names[..k]);
      assert names[..k] + [names[k]] == names[..k + 1];
    }
  }

  const MAXNAME := 16

  /** The size of a directory entry: a name and a 32-bit inode number. */
  const DIRENT := MAXNAME + 4

  function Entry(name: seq<Byte>, id: nat): (e: seq<Byte>)
    requires |name| < MAXNAME && id < TWO32
    ensures |e| == DIRENT
  {
    name + seq(MAXNAME - |name|, _ => 0) + [id % 256, id / 256 % 256, id / 65536 % 256, id / 16777216 % 256]
  }

  /** The root directory of an image with these files. */
  function Directory(names: seq<seq<Byte>>): (d: seq<Byte>)
    requires |names| < TWO32 - 2 && forall k | 0 <= k < |names| :: |names[k]| < MAXNAME
    ensures |d| == |names| * DIRENT
  {
    if names == [] then []
    else Directory(names[..|names| - 1]) + Entry(names[|names| - 1], ROOT_INODE + |names|)
  }

  /** Entry `k` of a directory: the name, zeros behind it, and the inode number. */
  ghost predicate EntryIn(d: seq<Byte>, k: nat, name: seq<Byte>, id: nat) {
    var at := 20 * k;
    && at + 20 <= |d| && |name| < 16 && d[at..at + |name|] == name
    && (forall i | at + |name| <= i < at + 16 :: d[i] == 0)
    && var w: nat, x: nat, y: nat, z: nat := d[at + 16], d[at + 17], d[at + 18], d[at + 19];
    w + 256 * (x + 256 * (y + 256 * z)) == id
  }

  lemma {:induction false} EntryReads(name: seq<Byte>, id: nat)
    requires |name| < MAXNAME && id < TWO32
    ensures EntryIn(Entry(name, id), 0, name, id)
  {
    Digits(id);
  }

  /** In the directory of an image every file has an entry with its name and the
      number of its inode. */
  lemma {:induction false} DirectoryReads(names: seq<seq<Byte>>, k: nat)
    requires |names| < TWO32 - 2 && (forall j | 0 <= j < |names| :: |names[j]| < MAXNAME) && k < |names|
    ensures EntryIn(Directory(names), k, names[k], ROOT_INODE + 1 + k)
    decreases |names|
  {
    var n := |names| - 1;
    var d, e := Directory(names[..n]), Entry(names[n], ROOT_INODE + |names|);
    if k < n {
      DirectoryReads(names[..n], k);
      EntryStays(d, e, k, names[k], ROOT_INODE + 1 + k);
    } else {
      EntryReads(names[n], ROOT_INODE + |names|);
      EntryLast(d, e, k, names[k], ROOT_INODE + 1 + k);
    }
  }

  lemma {:induction false} DirectoryAll(names: seq<seq<Byte>>)
    requires |names| < TWO32 - 2 && forall j | 0 <= j < |names| :: |names[j]| < MAXNAME
    ensures forall k | 0 <= k < |names| :: EntryIn(Directory(names), k, names[k], k + 2)
  {
    forall k | 0 <= k < |names| ensures EntryIn(Directory(names), k, names[k], k + 2) {
      DirectoryReads(names, k);
    }
  }

  lemma {:induction false} EntryStays(d: seq<Byte>, e: seq<Byte>, k: nat, name: seq<Byte>, id: nat)
    requires EntryIn(d, k, name, id)
    ensures EntryIn(d + e, k, name, id)
  {
    var at := 20 * k;
    assert (d + e)[at..at + |name|] == d[at..at + |name|];
  }

  lemma {:induction false} EntryLast(d: seq<Byte>, e: seq<Byte>, k: nat, name: seq<Byte>, id: nat)
    requires EntryIn(e, 0, name, id) && |d| == 20 * k
    ensures EntryIn(d + e, k, name, id)
  {
    var at := 20 * k;
    assert (d + e)[at..at + |name|] == e[0..|name|];
    assert forall i | at <= i < |d + e| :: (d + e)[i] == e[i - at];
  }

  /** The root directory lists `names`. */
  ghost predicate Listed(fs: Fs, names: seq<seq<Byte>>) {
    && Sized(fs) && ROOT_INODE in fs.inodes && fs.inodes[ROOT_INODE].dir[0] == fs.sb.dataStart != 0
    && |names| < TWO32 - 2 && (forall k | 0 <= k < |names| :: |names[k]| < MAXNAME)
    && Content(fs, ROOT_INODE) == Directory(names)
  }

  /** An entry written behind the others. */
  lemma {:induction false} EntryWritten(fs: Fs, at: nat, e: seq<Byte>, last: nat)
    requires Shape(fs) && Untouched(fs, last) && forall j | j in fs.inodes :: Filled(fs, j)
    requires ROOT_INODE in fs.inodes && fs.inodes[ROOT_INODE].dir[0] == fs.sb.dataStart != 0
    requires fs.inodes[ROOT_INODE].size == at && at + |e| <= BLK && |e| == DIRENT
    ensures fs.sb.dataStart < |fs.blk|
    ensures var t := fs.(blk := fs.blk[fs.sb.dataStart := Patched(fs.blk[fs.sb.dataStart], at, e)]);
            var fs' := Sizes(t, ROOT_INODE, at + |e|);
            && Shape(fs') && Untouched(fs', last) && (forall j | j in fs'.inodes :: Filled(fs', j))
            && Content(fs', ROOT_INODE) == Content(fs, ROOT_INODE) + e && OthersKept(fs, fs', ROOT_INODE)
  {
    var b := fs.sb.dataStart;
    assert BlkOf(fs, ROOT_INODE, 0) == b && SlotOk(fs, ROOT_INODE, 0);
    var t := fs.(blk := fs.blk[b := Patched(fs.blk[b], at, e)]);
    RootPatched(fs, t, b);
    SizesKept(t, ROOT_INODE, at + |e|, last);
    var fs' := Sizes(t, ROOT_INODE, at + |e|);
    SizesOk(t, ROOT_INODE, at + |e|);
    OthersTrans(fs, t, fs', ROOT_INODE);
    forall j | j in fs'.inodes ensures Filled(fs', j) {
      assert Filled(fs, j);
      EntryFilled(fs, fs', j);
    }
    EntryContent(fs, fs', b, at, e);
  }

  lemma {:induction false} EntryFilled(fs: Fs, fs': Fs, j: nat)
    requires Sized(fs) && Sized(fs') && j in fs.inodes && j in fs'.inodes && Filled(fs, j) &&
             BlkOf(fs, ROOT_INODE, 0) != 0
    requires if j == ROOT_INODE then fs'.inodes[j].size <= BLK else fs'.inodes[j].size == fs.inodes[j].size
    requires forall j, n :: BlkOf(fs', j, n) == BlkOf(fs, j, n)
    ensures Filled(fs', j)
  {
  }

  lemma {:induction false} EntryContent(fs: Fs, fs': Fs, b: nat, at: nat, e: seq<Byte>)
    requires Sized(fs) && Sized(fs') && 0 < b < |fs.blk| && at + |e| <= BLK
    requires SizeOf(fs, ROOT_INODE) == at && SizeOf(fs', ROOT_INODE) == at + |e|
    requires BlkOf(fs, ROOT_INODE, 0) == BlkOf(fs', ROOT_INODE, 0) == b < |fs'.blk|
    requires fs'.blk[b] == Patched(fs.blk[b], at, e)
    ensures Content(fs', ROOT_INODE) == Content(fs, ROOT_INODE) + e
  {
    var c, d := Content(fs', ROOT_INODE), Content(fs, ROOT_INODE) + e;
    forall k | 0 <= k < |c| ensures c[k] == d[k] {
      assert k / BLK == 0 && k % BLK == k;
    }
  }

  /** Writing the first block of the root directory changes no other slot. */
  lemma {:induction false} RootPatched(fs: Fs, t: Fs, b: nat)
    requires Shape(fs) && BlkOf(fs, ROOT_INODE, 0) == b && InData(fs, b) && b != 0 && ROOT_INODE in fs.inodes
    requires |t.blk| == |fs.blk| && t == fs.(blk := fs.blk[b := t.blk[b]])
    ensures Shape(t) && OthersKept(fs, t, ROOT_INODE) && forall j, n :: BlkOf(t, j, n) == BlkOf(fs, j, n)
  {
    forall j, n ensures SlotOk(t, j, n) && BlkOf(t, j, n) == BlkOf(fs, j, n)
                        && (j != ROOT_INODE ==> SlotAt(t, j, n) == SlotAt(fs, j, n)) {
      NoSharing(fs, ROOT_INODE, 0, j, n);
      assert SlotOk(fs, j, n);
    }
    ShapeOk(fs, t);
  }

  // ---------------------------------------------------------------------- what fits

  /** The builder gives out blocks below this number. */
  function Limit(sb: Super): nat {
    if sb.nbBlk < sb.dataStart then 0
    else if sb.nbBlk - sb.dataStart < BITS then sb.nbBlk - sb.dataStart else BITS
  }

  /** Blocks taken for `n` slots, the indirect block included. */
  function SlotBlocks(n: nat): nat {
    if n > DIRECT then n + 1 else n
  }

  function Needed(size: nat): nat {
    SlotBlocks(Blocks(size))
  }

  function Total(files: seq<seq<Byte>>): nat {
    if files == [] then 0 else Total(files[..|files| - 1]) + Needed(|files[|files| - 1]|)
  }

  /** The files fit: each is small enough, their names too, one bitmap block is
      enough, and so are the inodes and one block of directory. */
  ghost predicate Buildable(sb: Super, files: seq<seq<Byte>>, names: seq<seq<Byte>>)
    requires |files| == |names|
  {
    && (forall k | 0 <= k < |files| :: |files[k]| <= MAX_SIZE && |names[k]| < MAXNAME)
    && Total(files) < Limit(sb) && ROOT_INODE + |files| < NB_INODES && |files| * DIRENT <= BLK
  }

  lemma {:induction false} TotalMore(files: seq<seq<Byte>>, k: nat)
    requires k < |files|
    ensures Total(files[..k + 1]) == Total(files[..k]) + Needed(|files[k]|) <= Total(files)
    decreases |files|
  {
    var some := files[..k + 1];
    assert some[..k] == files[..k] && some[k] == files[k];
    if k + 1 < |files| {
      var rest := files[..|files| - 1];
      TotalMore(rest, k);
      assert rest[..k + 1] == some;
    } else {
      assert some == files;
    }
  }

  lemma {:induction false} NextChunk(done: nat, c: nat, size: nat)
    requires done < size <= MAX_SIZE && done == Blocks(done) * BLK &&
             c == if size - done < BLK then size - done else BLK
    ensures Blocks(done) < SLOTS && Blocks(done + c) == Blocks(done) + 1 <= Blocks(size)
    ensures done + c < size ==> done + c == Blocks(done + c) * BLK
    ensures SlotBlocks(Blocks(done) + 1) ==
            SlotBlocks(Blocks(done)) + (if Blocks(done) == DIRECT then 2 else 1) <= Needed(size)
  {
  }

  const ROOT_INODE := 1
  const NB_INODES := 320

  lemma {:induction false} BothKept(s: Fs, t: Fs, s': Fs, i: nat)
    requires OthersKept(s, t, i) && OthersKept(t, s', ROOT_INODE) && i > ROOT_INODE
    ensures Content(s', i) == Content(t, i) && forall j | ROOT_INODE < j < i :: Content(s', j) == Content(s, j)
  {
    SameContent(t, s', ROOT_INODE, i);
    forall j | ROOT_INODE < j < i ensures Content(s', j) == Content(s, j) {
      SameContent(t, s', ROOT_INODE, j);
      SameContent(s, t, i, j);
    }
  }

  lemma {:induction false} SameContent(s: Fs, s': Fs, i: nat, j: nat)
    requires OthersKept(s, s', i) && j != i
    ensures Content(s', j) == Content(s, j)
  {
    forall k: nat ensures ByteAt(s', j, k) == ByteAt(s, j, k) {}
  }

  /** The inode bitmap has exactly the inodes there are and the reserved one, and
      the blocks past the last one given out are not marked. */
  ghost predicate Imaged(fs: Fs, last: nat) {
    && Sized(fs) && (forall i | 0 <= i < BITS :: BitAt(fs.blk[fs.sb.ibmStart], i) <==> i == 0 || i in fs.inodes)
    && forall b | fs.sb.dataStart + last < b < fs.sb.nbBlk && b < fs.sb.dataStart + BITS :: !Used(fs, b)
  }

  lemma {:induction false} BitmapsWritten(fs: Fs, last: nat, inodes: nat)
    requires Shape(fs) && Untouched(fs, last) && inodes < BITS && last < BITS && fs.sb.nbDbm > 0
    requires forall j | j in fs.inodes :: Filled(fs, j)
    requires forall i :: i in fs.inodes <==> ROOT_INODE <= i <= inodes
    ensures var fs' := fs.(blk := fs.blk[fs.sb.ibmStart := Prefix(inodes + 1)][fs.sb.dbmStart := Prefix(last + 1)]);
            && Inv(fs') && (forall j :: Content(fs', j) == Content(fs, j)) && Imaged(fs', last)
            && fs'.blk[0] == fs.blk[0]
  {
    InodesWritten(fs, last, inodes);
    var t := fs.(blk := fs.blk[fs.sb.ibmStart := Prefix(inodes + 1)]);
    BitmapWritten(t, last);
    var fs' := t.(blk := t.blk[fs.sb.dbmStart := Prefix(last + 1)]);
    assert fs'.blk[fs.sb.ibmStart] == t.blk[fs.sb.ibmStart];
  }

  /** What the builder has before it writes the bitmaps, as a value. */
  ghost function Buildup(fs: Fs, last: nat, inodes: nat): Verdict {
    if && Shape(fs) && Untouched(fs, last) && inodes < BITS && last < BITS && fs.sb.nbDbm > 0
       && (forall j | j in fs.inodes :: Filled(fs, j))
       && forall i :: i in fs.inodes <==> ROOT_INODE <= i <= inodes
    then Yes else No
  }

  lemma {:induction false} BitmapsThere(fs: Fs, fs': Fs, last: nat, inodes: nat)
    requires Buildup(fs, last, inodes) == Yes && inodes < BITS && last < BITS
    requires fs.sb.ibmStart < |fs.blk| && fs.sb.dbmStart < |fs.blk|
    requires fs' == fs.(blk := fs.blk[fs.sb.ibmStart := Prefix(inodes + 1)][fs.sb.dbmStart := Prefix(last + 1)])
    ensures Sized(fs) && Inv(fs') && (forall j :: Content(fs', j) == Content(fs, j)) && Imaged(fs', last)
    ensures |fs'.blk| > 0 && fs'.blk[0] == fs.blk[0]
  {
    BitmapsWritten(fs, last, inodes);
  }

  lemma {:induction false} InodesWritten(fs: Fs, last: nat, inodes: nat)
    requires Shape(fs) && Untouched(fs, last) && inodes < BITS && forall j | j in fs.inodes :: Filled(fs, j)
    requires forall i :: i in fs.inodes <==> ROOT_INODE <= i <= inodes
    ensures var fs' := fs.(blk := fs.blk[fs.sb.ibmStart := Prefix(inodes + 1)]);
            && Shape(fs') && Untouched(fs', last) && (forall j | j in fs'.inodes :: Filled(fs', j))
            && (forall j :: Content(fs', j) == Content(fs, j))
            && forall i | 0 <= i < BITS :: BitAt(fs'.blk[fs.sb.ibmStart], i) <==> i == 0 || i in fs.inodes
  {
    var fs' := fs.(blk := fs.blk[fs.sb.ibmStart := Prefix(inodes + 1)]);
    MetaWritten(fs, fs', fs.sb.ibmStart, Prefix(inodes + 1));
    ShapeOk(fs, fs');
    forall j | j in fs'.inodes ensures Filled(fs', j) {
      assert Filled(fs, j);
    }
    MetaContent(fs, fs');
    forall i | 0 <= i < BITS ensures BitAt(fs'.blk[fs.sb.ibmStart], i) <==> i == 0 || i in fs.inodes {
      PrefixBits(inodes + 1, i);
    }
  }

  lemma {:induction false} MetaContent(fs: Fs, fs': Fs)
    requires SameSlots(fs, fs') && fs'.inodes == fs.inodes
    ensures forall j :: Content(fs', j) == Content(fs, j)
  {
    forall j ensures Content(fs', j) == Content(fs, j) {
      forall k: nat ensures ByteAt(fs', j, k) == ByteAt(fs, j, k) {}
    }
  }

  /** With the first bits set, exactly the blocks given out are marked. */
  lemma {:induction false} BitmapWritten(fs: Fs, last: nat)
    requires Shape(fs) && Untouched(fs, last) && last < BITS && fs.sb.nbDbm > 0
    requires forall j | j in fs.inodes :: Filled(fs, j)
    ensures var fs' := fs.(blk := fs.blk[fs.sb.dbmStart := Prefix(last + 1)]);
            && Inv(fs') && (forall j :: Content(fs', j) == Content(fs, j))
            && forall b | fs.sb.dataStart + last < b < fs.sb.nbBlk && b < fs.sb.dataStart + BITS :: !Used(fs', b)
  {
    var bm := Prefix(last + 1);
    var fs' := fs.(blk := fs.blk[fs.sb.dbmStart := bm]);
    MetaWritten(fs, fs', fs.sb.dbmStart, bm);
    ShapeOk(fs, fs');
    forall j | j in fs'.inodes ensures Filled(fs', j) {
      assert Filled(fs, j);
    }
    forall b | fs.sb.dataStart <= b < fs.sb.nbBlk ensures BlockOk(fs', b) {
      if b <= fs.sb.dataStart + last {
        FirstBits(fs', last, b);
      }
    }
    forall b | fs.sb.dataStart + last < b < fs.sb.nbBlk && b < fs.sb.dataStart + BITS ensures !Used(fs', b) {
      FirstBits(fs', last, b);
    }
    MetaContent(fs, fs');
  }

  lemma {:induction false} FirstBits(fs: Fs, last: nat, b: nat)
    requires Sized(fs) && last < BITS && fs.sb.nbDbm > 0 && fs.blk[fs.sb.dbmStart] == Prefix(last + 1)
    requires InData(fs, b) && b < fs.sb.dataStart + BITS
    ensures Used(fs, b) <==> b <= fs.sb.dataStart + last
  {
    BitPlace(fs.sb, 0, b - fs.sb.dataStart);
    PrefixBits(last + 1, b - fs.sb.dataStart);
  }

  /** Writing a bitmap block touches no slot. */
  lemma {:induction false} MetaWritten(fs: Fs, fs': Fs, at: nat, bm: Block)
    requires Shape(fs) && 0 < at < fs.sb.dataStart && fs' == fs.(blk := fs.blk[at := bm])
    ensures Sized(fs') && SameSlots(fs, fs') && forall j, n :: SlotOk(fs', j, n)
  {
    forall j: nat, n: nat
      ensures SlotOk(fs', j, n) && BlkOf(fs', j, n) == BlkOf(fs, j, n) && SlotAt(fs', j, n) == SlotAt(fs, j, n)
    {
      assert SlotOk(fs, j, n);
      if j in fs.inodes {
        assert InodeOk(fs, j);
      }
    }
  }

  /** Builder and kernel together: every file that went into the image comes
      out of inode_read byte for byte, whatever its length, and the root
      directory lists them. */
  method RoundTrip(sb: Super, files: seq<seq<Byte>>, names: seq<seq<Byte>>)
    returns (ok: bool, dir: seq<Byte>, back: seq<seq<Byte>>)
    requires 0 < sb.ibmStart < sb.dbmStart < sb.dbmStart + sb.nbDbm <= sb.dataStart < sb.nbBlk <= MAX_BLKS
    requires sb.nbBlk <= sb.dataStart + BITS * sb.nbDbm && |files| == |names|
    ensures ok <==> Buildable(sb, files, names)
    ensures ok ==> back == files && dir == Directory(names)
    ensures ok ==> forall k | 0 <= k < |names| :: EntryIn(dir, k, names[k], k + 2)
  {
    var m := new Builder(sb);
    assert names[..0] == [];
    ok := m.Build(files, names);
    back, dir := [], [];
    if !ok {
      return;
    }
    DirectoryAll(names);
    var v := new Volume(m.sb, m.blk, m.inodes, m.own);
    dir := ReadFile(v, ROOT_INODE);
    back := ReadAll(v, |files|, files);
  }

  /** A whole file, read by the kernel. */
  method ReadFile(v: Volume, i: nat) returns (bytes: seq<Byte>)
    requires Inv(v.S()) && i in v.inodes
    modifies v`blk, v`inodes, v`own
    ensures v.S() == old(v.S()) && bytes == Content(v.S(), i)
  {
    var res := v.Read(i, 0, v.inodes[i].size);
    bytes := res.value;
  }

  /** Every file of the image, read by the kernel. */
  method ReadAll(v: Volume, count: nat, ghost files: seq<seq<Byte>>) returns (back: seq<seq<Byte>>)
    requires Inv(v.S()) && count == |files|
    requires forall i | ROOT_INODE < i <= ROOT_INODE + count ::
               i in v.inodes && Content(v.S(), i) == files[i - ROOT_INODE - 1]
    modifies v`blk, v`inodes, v`own
    ensures back == files && v.S() == old(v.S())
  {
    back := [];
    var k := 0;
    while k < count
      invariant 0 <= k <= count && v.S() == old(v.S()) && back == files[..k]
    {
      var ino := ROOT_INODE + 1 + k;
      assert Content(v.S(), ino) == files[k];
      var bytes := ReadFile(v, ino);
      back := back + [bytes];
      k := k + 1;
    }
  }

  /** `s'` is `s` with file `i` streamed up to `done`, as a value, which keeps
      the definitions folded in the contracts below. */
  ghost function Grown(s: Fs, s': Fs, i: nat, done: seq<Byte>, n: nat, last: nat): Verdict {
    if Streamed(s', i, done, n) && Others(s, s', i, last) == Yes then Yes else No
  }

  ghost function Others(s: Fs, s': Fs, i: nat, last: nat): Verdict {
    if OthersKept(s, s', i) && Untouched(s', last) then Yes else No
  }

  /** The state `t` in which the block number `b` is ready to go into slot `n`. */
  ghost predicate Ready(s: Fs, s1: Fs, t: Fs, i: nat, done: seq<Byte>, n: nat, b: nat, chunk: seq<Byte>) {
    && Streamed(s, i, done, n) && |done| == n * BLK && n < SLOTS && 0 < |chunk| <= BLK
    && InData(s, b) && s.own[b] == Free && s1 == Assigned(s, b, Data(i, n), Patched(Zero(), 0, chunk))
    && Shape(s1) && SameSlots(s, s1) && Shape(t) && SameSlots(s1, t) && OthersKept(s1, t, i)
    && t.own[b] == Data(i, n) && t.blk[b] == s1.blk[b] && i in t.inodes && t.inodes.Keys == s.inodes.Keys
    && (t.inodes[i].indir != 0 <==> n >= DIRECT) && t.inodes[i].size == s.inodes[i].size
  }

  ghost function ReadyIs(s: Fs, s1: Fs, t: Fs, i: nat, done: seq<Byte>, n: nat, b: nat, chunk: seq<Byte>): Verdict {
    if forall open {:trigger Folded(s, t, open)} :: Folded(s, t, open) ==> Ready(s, s1, t, i, done, n, b, chunk)
    then Yes else No
  }

  /** Stands before a definition that stays folded until this is asserted. */
  ghost predicate Folded(s: Fs, t: Fs, open: bool) {
    true
  }

  lemma {:induction false} StreamReady(s: Fs, s1: Fs, t: Fs, i: nat, done: seq<Byte>, n: nat, b: nat, chunk: seq<Byte>)
    requires Ready(s, s1, t, i, done, n, b, chunk)
    ensures BlkOf(t, i, n) == 0 && (n >= DIRECT ==> t.inodes[i].indir < |t.blk|) && b < TWO32 && InData(t, b)
  {
    assert BlkOf(s, i, n) == 0 && InodeOk(t, i);
    assert BlkOf(t, i, n) == BlkOf(s1, i, n);
  }

  lemma {:induction false} ReadySlot(s: Fs, s1: Fs, t: Fs, i: nat, done: seq<Byte>, n: nat, b: nat, chunk: seq<Byte>,
                                     last: nat)
    requires Ready(s, s1, t, i, done, n, b, chunk) && Untouched(t, last)
    ensures n >= DIRECT ==> t.inodes[i].indir < |t.blk|
    ensures var s2 := SetSlot(t, i, n, b);
            && Shape(s2) && OwnSlot(s, s2, i, n, b) && OthersKept(s, s2, i) && Untouched(s2, last)
            && SlotAt(s2, i, n) == Some(t.blk[b])
  {
    StreamReady(s, s1, t, i, done, n, b, chunk);
    SetSlotShape(t, i, n, b);
    AssignedKept(s, s1, t, i, b);
    SlotDone(s, t, SetSlot(t, i, n, b), i, n, b, last);
  }

  lemma {:induction false} StreamedFile(s: Fs, s1: Fs, t: Fs, i: nat, done: seq<Byte>, n: nat, b: nat,
                                        chunk: seq<Byte>, last: nat)
    requires ReadyIs(s, s1, t, i, done, n, b, chunk) == Yes && Sized(t) && Untouched(t, last)
    ensures i in t.inodes && n < SLOTS && b < TWO32 && (n >= DIRECT ==> t.inodes[i].indir < |t.blk|)
    ensures Streamed(Sizes(SetSlot(t, i, n, b), i, |done| + |chunk|), i, done + chunk, n + 1)
    ensures t.inodes[i].size == |done|
  {
    assert Folded(s, t, true);
    StreamReady(s, s1, t, i, done, n, b, chunk);
    ReadySlot(s, s1, t, i, done, n, b, chunk, last);
    StreamMore(s, SetSlot(t, i, n, b), i, done, n, b, chunk);
  }

  lemma {:induction false} StreamedOthers(s: Fs, s1: Fs, t: Fs, i: nat, done: seq<Byte>, n: nat, b: nat,
                                          chunk: seq<Byte>, last: nat)
    requires ReadyIs(s, s1, t, i, done, n, b, chunk) == Yes && Sized(t) && Untouched(t, last)
    ensures i in t.inodes && n < SLOTS && b < TWO32 && (n >= DIRECT ==> t.inodes[i].indir < |t.blk|)
    ensures Others(s, Sizes(SetSlot(t, i, n, b), i, |done| + |chunk|), i, last) == Yes
  {
    ReadyOthers(s, s1, t, i, done, n, b, chunk, last);
    SizesAlso(s, SetSlot(t, i, n, b), i, |done| + |chunk|, last);
  }

  lemma {:induction false} ReadyOthers(s: Fs, s1: Fs, t: Fs, i: nat, done: seq<Byte>, n: nat, b: nat,
                                       chunk: seq<Byte>, last: nat)
    requires ReadyIs(s, s1, t, i, done, n, b, chunk) == Yes && Sized(t) && Untouched(t, last)
    ensures i in t.inodes && n < SLOTS && b < TWO32 && (n >= DIRECT ==> t.inodes[i].indir < |t.blk|)
    ensures |done| + |chunk| <= MAX_SIZE && i in SetSlot(t, i, n, b).inodes
    ensures Shape(SetSlot(t, i, n, b)) && Others(s, SetSlot(t, i, n, b), i, last) == Yes
  {
    assert Folded(s, t, true);
    StreamReady(s, s1, t, i, done, n, b, chunk);
    ReadySlot(s, s1, t, i, done, n, b, chunk, last);
  }

  lemma {:induction false} SizesAlso(s: Fs, fs: Fs, i: nat, size: nat, last: nat)
    requires Shape(fs) && i in fs.inodes && size <= MAX_SIZE && Others(s, fs, i, last) == Yes
    ensures Others(s, Sizes(fs, i, size), i, last) == Yes
  {
    SizesKept(fs, i, size, last);
    OthersTrans(s, fs, Sizes(fs, i, size), i);
  }

  lemma {:induction false} StreamedBlock(s0: Fs, s: Fs, s1: Fs, t: Fs, i: nat, done: seq<Byte>, n: nat, b: nat,
                                         chunk: seq<Byte>, last: nat)
    requires ReadyIs(s, s1, t, i, done, n, b, chunk) == Yes && Sized(t) && Untouched(t, last) && OthersKept(s0, s, i)
    ensures i in t.inodes && n < SLOTS && b < TWO32 && (n >= DIRECT ==> t.inodes[i].indir < |t.blk|)
    ensures t.inodes[i].size == |done|
    ensures Grown(s0, Sizes(SetSlot(t, i, n, b), i, |done| + |chunk|), i, done + chunk, n + 1, last) == Yes
  {
    StreamedFile(s, s1, t, i, done, n, b, chunk, last);
    StreamedOthers(s, s1, t, i, done, n, b, chunk, last);
    OthersTrans(s0, s, Sizes(SetSlot(t, i, n, b), i, |done| + |chunk|), i);
  }

  /** The empty file the streaming starts with. */
  lemma {:induction false} NewFile(s: Fs, s': Fs, i: nat, x: Inode, last: nat)
    requires Shape(s) && Untouched(s, last) && i !in s.inodes && x.size == 0 && |x.dir| == DIRECT && x.indir == 0
    requires forall n | 0 <= n < DIRECT :: x.dir[n] == 0
    requires s' == s.(inodes := s.inodes[i := x])
    ensures Grown(s, s', i, [], 0, last) == Yes
  {
    forall j: nat, n: nat
      ensures SlotOk(s', j, n) && BlkOf(s', j, n) == BlkOf(s, j, n) && SlotAt(s', j, n) == SlotAt(s, j, n)
    {
      assert SlotOk(s, j, n);
    }
    forall j | j in s'.inodes ensures InodeOk(s', j) {
      assert j != i ==> InodeOk(s, j);
    }
  }

  lemma {:induction false} FileDone(s: Fs, s': Fs, i: nat, file: seq<Byte>, n: nat, last: nat)
    requires Grown(s, s', i, file, n, last) == Yes && |file| <= n * BLK < |file| + BLK
    requires Shape(s) && forall j | j in s.inodes && j != i :: Filled(s, j)
    ensures Shape(s') && Untouched(s', last) && Content(s', i) == file && forall j | j in s'.inodes :: Filled(s', j)
  {
    StreamedContent(s', i, file, n);
    forall j | j in s'.inodes && j != i ensures Filled(s', j) {
      assert Filled(s, j);
    }
  }

  lemma {:induction false} AssignedKept(s: Fs, s1: Fs, t: Fs, i: nat, b: nat)
    requires Sized(s) && Sized(s1) && s1.sb == s.sb && s1.inodes == s.inodes && SameSlots(s, s1) &&
             SameSlots(s1, t) && OthersKept(s1, t, i)
    requires InData(s, b) && forall x | 0 <= x < |s.blk| && x != b :: s1.blk[x] == s.blk[x]
    ensures SameSlots(s, t) && OthersKept(s, t, i)
  {
    forall j: nat, n: nat ensures BlkOf(t, j, n) == BlkOf(s, j, n) && SlotAt(t, j, n) == SlotAt(s, j, n) {
      assert BlkOf(s1, j, n) == BlkOf(s, j, n) && SlotAt(s1, j, n) == SlotAt(s, j, n);
    }
  }

  lemma {:induction false} SlotDone(s: Fs, t: Fs, s': Fs, i: nat, n: nat, b: nat, last: nat)
    requires Shape(t) && i in t.inodes && n < SLOTS && InData(t, b) && BlkOf(t, i, n) == 0 && t.own[b] == Data(i, n)
    requires n >= DIRECT ==> t.inodes[i].indir != 0 && t.inodes[i].indir < |t.blk|
    requires s' == SetSlot(t, i, n, b) && Shape(s') && OneSlot(t, s', i, n, b) && SameSlots(s, t) && OthersKept(s, t, i)
    requires Untouched(t, last)
    ensures OwnSlot(s, s', i, n, b) && OthersKept(s, s', i) && Untouched(s', last)
  {
    assert InodeOk(t, i);
    assert OneSlotAt(t, s', i, n, b, i, n);
    forall j, m | !(j == i && m == n) ensures BlkOf(s', j, m) == BlkOf(s, j, m) && SlotAt(s', j, m) == SlotAt(s, j, m) {
      assert OneSlotAt(t, s', i, n, b, j, m);
      assert BlkOf(t, j, m) == BlkOf(s, j, m) && SlotAt(t, j, m) == SlotAt(s, j, m);
    }
  }

  lemma {:induction false} SizesKept(fs: Fs, i: nat, size: nat, last: nat)
    requires Shape(fs) && i in fs.inodes && size <= MAX_SIZE && Untouched(fs, last)
    ensures OthersKept(fs, Sizes(fs, i, size), i) && Untouched(Sizes(fs, i, size), last)
  {
    SizesOk(fs, i, size);
  }

  // ------------------------------------------------------------------------- the bitmap

  /** write_bm: the first `n` bits set. */
  function Prefix(n: nat): (bm: Block)
    requires n <= BITS
  {
    var full := seq(n / 8, _ => 255);
    if n % 8 == 0 then full + seq(BLK - n / 8, _ => 0)
    else full + [Low(n % 8)] + seq(BLK - n / 8 - 1, _ => 0)
  }

  /** (1 << k) - 1 */
  function Low(k: nat): Byte
    requires k < 8
  {
    ByteBound();
    LowBound(k);
    Doubled(1, k) - 1
  }

  lemma {:induction false} LowBound(k: nat)
    requires k <= 8
    ensures 1 <= Doubled(1, k) <= 256
  {
    ByteBound();
    assert Doubled(1, 1) == 2 && Doubled(1, 2) == 4 && Doubled(1, 3) == 8 && Doubled(1, 4) == 16;
    assert Doubled(1, 5) == 32 && Doubled(1, 6) == 64 && Doubled(1, 7) == 128;
  }

  lemma {:induction false} LowBits(x: nat, k: nat, j: nat)
    requires x + 1 == Doubled(1, k)
    ensures Bit(x, j) <==> j < k
  {
    if j < k {
      OnesSet(x, k, j);
    } else {
      HighBits(x, k, j);
    }
  }

  lemma {:induction false} HighBits(x: nat, k: nat, j: nat)
    requires x < Doubled(1, k) && j >= k
    ensures !Bit(x, j)
  {
    if k > 0 {
      HighBits(x / 2, k - 1, j - 1);
    } else if j > 0 {
      HighBits(0, 0, j - 1);
    }
  }

  /** Exactly the bits below `n` are set. */
  lemma {:induction false} PrefixBits(n: nat, j: nat)
    requires n <= BITS && j < BITS
    ensures BitAt(Prefix(n), j) <==> j < n
  {
    ByteBound();
    var byte := Prefix(n)[j / 8];
    if j / 8 < n / 8 {
      assert byte == 255;
      LowBits(255, 8, j % 8);
    } else if j / 8 == n / 8 && n % 8 != 0 {
      assert byte == Low(n % 8);
      LowBits(byte, n % 8, j % 8);
    } else {
      assert byte == 0;
      HighBits(0, 0, j % 8);
    }
  }
}
