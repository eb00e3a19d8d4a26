/** Files through the block cache: every block the file code reads or writes
    passes through a buffer, whatever the disk itself holds. */
module CachedFiles {
  import opened Common
  import opened Bitmap
  import opened FileLayout
  import opened Files
  import BC = BlockCache

  /** The cache shows the blocks of `fs`. */
  ghost predicate Joined(fs: Fs, s: BC.State<Block>) {
    Shows(fs, s) == Yes
  }

  ghost function Shows(fs: Fs, s: BC.State<Block>): Verdict {
    if BC.Inv(s) && |s.disk| == |fs.blk| && forall b | 0 <= b < |fs.blk| :: BC.View(s, b) == fs.blk[b] then Yes else No
  }

  ghost function Fine(fs: Fs): Verdict {
    if Inv(fs) then Yes else No
  }

  /** The buffers that cannot be given to another block. */
  ghost function Busy(s: BC.State<Block>): set<nat> {
    set i | 0 <= i < |s.slots| && !BC.Reusable(s.slots[i])
  }

  /** How the cache may change: as many buffers, and at most `n` more of them
      busy. */
  ghost predicate Spends(s: BC.State<Block>, s': BC.State<Block>, n: nat) {
    |s'.slots| == |s.slots| && |Busy(s')| <= |Busy(s)| + n
  }

  lemma {:induction false} FewBusy(s: BC.State<Block>)
    ensures |Busy(s)| < |s.slots| ==> exists i :: 0 <= i < |s.slots| && BC.Reusable(s.slots[i])
  {
    if forall i | 0 <= i < |s.slots| :: !BC.Reusable(s.slots[i]) {
      AllBusy(s, |s.slots|);
    }
  }

  lemma {:induction false} AllBusy(s: BC.State<Block>, n: nat)
    requires n <= |s.slots| && forall i | 0 <= i < |s.slots| :: !BC.Reusable(s.slots[i])
    ensures |set i | 0 <= i < n && i in Busy(s)| == n
    ensures n == |s.slots| ==> |Busy(s)| == n
  {
    var some := set i | 0 <= i < n && i in Busy(s);
    if n > 0 {
      AllBusy(s, n - 1);
      assert some == (set i | 0 <= i < n - 1 && i in Busy(s)) + {n - 1};
    }
    if n == |s.slots| {
      assert some == Busy(s);
    }
  }

  /** One buffer more can be busy when only buffer `i` changed. */
  lemma {:induction false} OneMore(s: BC.State<Block>, s': BC.State<Block>, i: nat)
    requires |s'.slots| == |s.slots| && i < |s.slots|
    requires forall j | 0 <= j < |s.slots| && j != i :: BC.Reusable(s'.slots[j]) == BC.Reusable(s.slots[j])
    ensures |Busy(s')| <= |Busy(s)| + 1
    ensures BC.Reusable(s'.slots[i]) || !BC.Reusable(s.slots[i]) ==> |Busy(s')| <= |Busy(s)|
  {
    assert Busy(s') <= Busy(s) + {i};
    if BC.Reusable(s'.slots[i]) || !BC.Reusable(s.slots[i]) {
      assert Busy(s') <= Busy(s);
      Fewer(Busy(s'), Busy(s));
    } else {
      Fewer(Busy(s'), Busy(s) + {i});
    }
  }

  lemma {:induction false} Fewer(a: set<nat>, b: set<nat>)
    requires a <= b
    ensures |a| <= |b|
  {
    assert b == a + (b - a);
  }

  lemma {:induction false} JoinedSame(fs: Fs, s: BC.State<Block>, s': BC.State<Block>)
    requires Joined(fs, s) && BC.Inv(s') && BC.SameView(s, s')
    ensures Joined(fs, s')
  {
  }

  lemma {:induction false} JoinedStore(fs: Fs, s: BC.State<Block>, s': BC.State<Block>, b: nat, data: Block)
    requires Joined(fs, s) && BC.Inv(s') && |s'.disk| == |s.disk| && b < |s.disk|
    requires forall c | 0 <= c < |s.disk| :: BC.View(s', c) == if c == b then data else BC.View(s, c)
    ensures Joined(Stored(fs, b, data), s')
  {
  }

  /** The last use of a buffer that was read ends. */
  method Finish(c: BC.Cache<Block>, i: nat, ghost fs: Fs, ghost s: BC.State<Block>)
    requires Joined(fs, c.S()) && i < |c.slots| == |s.slots| && c.slots[i].refcnt > 0
    requires forall j | 0 <= j < |s.slots| && j != i :: c.slots[j] == s.slots[j]
    modifies c
    ensures Joined(fs, c.S()) && Spends(s, c.S(), 1)
    ensures BC.Reusable(s.slots[i]) && old(c.slots)[i].refcnt == 1 && !old(c.slots)[i].dirty ==> Spends(s, c.S(), 0)
    ensures !BC.Reusable(s.slots[i]) ==> Spends(s, c.S(), 0)
  {
    ghost var t := c.S();
    c.Release(i);
    JoinedSame(fs, t, c.S());
    OneMore(s, c.S(), i);
  }

  /** bcache_read, a copy and bcache_release; None when the cache panics. */
  method Load(c: BC.Cache<Block>, b: nat, ghost fs: Fs) returns (data: Option<Block>)
    requires Joined(fs, c.S()) && b < |fs.blk|
    modifies c
    ensures Joined(fs, c.S()) && Spends(old(c.S()), c.S(), 0)
    ensures data.Some? ==> data.value == fs.blk[b]
    ensures |Busy(old(c.S()))| < |old(c.slots)| ==> data.Some?
  {
    ghost var s := c.S();
    FewBusy(s);
    var slot := c.Read(b);
    if slot.None? {
      return None;
    }
    JoinedSame(fs, s, c.S());
    data := Some(c.slots[slot.value].data);
    Finish(c, slot.value, fs, s);
  }

  /** bcache_read, a store, bcache_mark_dirty and bcache_release. */
  method Save(c: BC.Cache<Block>, b: nat, data: Block, ghost fs: Fs) returns (ok: bool)
    requires Joined(fs, c.S()) && b < |fs.blk|
    modifies c
    ensures Joined(if ok then Stored(fs, b, data) else fs, c.S()) && Spends(old(c.S()), c.S(), 1)
    ensures |Busy(old(c.S()))| < |old(c.slots)| ==> ok
  {
    ghost var s := c.S();
    FewBusy(s);
    var slot := c.Read(b);
    ok := slot.Some?;
    if ok {
      ghost var t := c.S();
      JoinedSame(fs, s, t);
      c.Store(slot.value, data);
      JoinedStore(fs, t, c.S(), b, data);
      Finish(c, slot.value, Stored(fs, b, data), s);
    }
  }

  /** Every data block below `end` is marked. */
  ghost predicate UsedBelow(fs: Fs, end: nat)
    requires Sized(fs)
  {
    forall x | fs.sb.dataStart <= x < fs.sb.nbBlk && x < end :: Used(fs, x)
  }

  /** Stands before a definition that stays folded until this is asserted. */
  ghost predicate Hidden(fs: Fs, open: bool) {
    true
  }

  ghost function Scanned(fs: Fs, end: nat): Verdict {
    if Sized(fs) && forall open {:trigger Hidden(fs, open)} :: Hidden(fs, open) ==> UsedBelow(fs, end) then Yes else No
  }

  lemma {:induction false} ScannedAll(fs: Fs, end: nat)
    requires Sized(fs) && Scanned(fs, end) == Yes && end >= fs.sb.nbBlk
    ensures Full(fs)
  {
    assert Hidden(fs, true);
  }

  ghost predicate FreeAt(fs: Fs, x: nat)
    requires Sized(fs)
  {
    InData(fs, x) ==> !Used(fs, x)
  }

  /** At least `n` buffers can still become busy. */
  ghost predicate Room(s: BC.State<Block>, n: nat) {
    |Busy(s)| + n <= |s.slots|
  }

  /** A volume in order behind a cache that shows it, folded. */
  ghost function Holds(fs: Fs, s: BC.State<Block>): Verdict {
    if forall open {:trigger Hidden(fs, open)} :: Hidden(fs, open) ==> Fine(fs) == Yes && Joined(fs, s)
    then Yes else No
  }

  /** `Progress` behind the cache, folded. */
  ghost function Under(s: Fs, t: Fs, cache: BC.State<Block>, i: nat, offset: nat, src: seq<Byte>, done: nat): Verdict
    requires done <= |src|
  {
    if forall open {:trigger Hidden(t, open)} :: Hidden(t, open) ==>
         Joined(t, cache) && Progress(s, t, i, offset, src, done) == Yes
    then Yes else No
  }

  /** What became of an operation: it went through, the disk is full, or the
      cache found no buffer and the kernel stopped. */
  datatype Outcome = Passed | NoSpace | Panic

  class Mounted {
    const sb: Super
    const cache: BC.Cache<Block>
    var inodes: map<nat, Inode>
    ghost var blk: seq<Block>
    ghost var own: seq<Owner>

    ghost function S(): Fs
      reads this
    {
      Fs(sb, blk, inodes, own)
    }

    ghost predicate Valid()
      reads this, cache
    {
      Fine(S()) == Yes && Joined(S(), cache.S())
    }

    /** A volume behind an empty cache. */
    constructor (sb: Super, cache: BC.Cache<Block>, inodes: map<nat, Inode>, ghost blk: seq<Block>,
                 ghost own: seq<Owner>)
      ensures S() == Fs(sb, blk, inodes, own) && this.cache == cache
    {
      this.sb, this.cache, this.inodes, this.blk, this.own := sb, cache, inodes, blk, own;
    }

    // ----------------------------------------------------------------------- allocation

    /** The first clear bit of bitmap block `i`, or -1. */
    method Scan(i: nat) returns (bit: int, ok: bool)
      requires Sized(S()) && Joined(S(), cache.S()) && i < sb.nbDbm && Scanned(S(), sb.dataStart + BITS * i) == Yes
      modifies cache
      ensures Joined(S(), cache.S()) && Spends(old(cache.S()), cache.S(), 0) && (Room(old(cache.S()), 1) ==> ok)
      ensures ok ==>
                && -1 <= bit < BITS
                && Scanned(S(), sb.dataStart + BITS * i + (if bit == -1 then BITS else bit)) == Yes
      ensures ok && bit >= 0 ==> FreeAt(S(), sb.dataStart + BITS * i + bit)
    {
      var bm := Load(cache, sb.dbmStart + i, S());
      if bm.None? {
        return -1, false;
      }
      bit := FindFirstZero(bm.value, BITS);
      assert Hidden(S(), true);
      ScannedBits(S(), i, bm.value, bit);
      ok := true;
    }

    /** The loop of bbm_alloc: the first clear bit, as a block number, or one
        past the bitmap. */
    method Search() returns (no: nat, ok: bool)
      requires Sized(S()) && Joined(S(), cache.S())
      modifies cache
      ensures Joined(S(), cache.S()) && Spends(old(cache.S()), cache.S(), 0) && (Room(old(cache.S()), 1) ==> ok)
      ensures ok ==> sb.dataStart <= no && Scanned(S(), no) == Yes && (no < sb.nbBlk ==> FreeAt(S(), no))
    {
      var i := 0;
      while i < sb.nbDbm
        invariant 0 <= i <= sb.nbDbm && Joined(S(), cache.S()) && Spends(old(cache.S()), cache.S(), 0)
        invariant Scanned(S(), sb.dataStart + BITS * i) == Yes
      {
        var bit, found := Scan(i);
        if !found {
          return 0, false;
        }
        if bit >= 0 {
          return bit + i * BITS + sb.dataStart, true;
        }
        i := i + 1;
      }
      return sb.dataStart + BITS * i, true;
    }

    /** The search of bbm_alloc. */
    method FindFree() returns (b: Option<nat>, ok: bool)
      requires Sized(S()) && Joined(S(), cache.S())
      modifies cache
      ensures Joined(S(), cache.S()) && Spends(old(cache.S()), cache.S(), 0) && (Room(old(cache.S()), 1) ==> ok)
      ensures ok && b.Some? ==> InData(S(), b.value) && !Used(S(), b.value)
      ensures ok && b.None? ==> Full(S())
    {
      var no;
      no, ok := Search();
      b := None;
      if ok && no >= sb.nbBlk {
        ScannedAll(S(), no);
      } else if ok {
        b := Some(no);
      }
    }

    /** A block, changed in the cache. */
    method Put(b: nat, data: Block) returns (ok: bool)
      requires Joined(S(), cache.S()) && b < |blk|
      modifies cache, this`blk
      ensures ok ==> S() == Stored(old(S()), b, data) && Joined(S(), cache.S())
      ensures Spends(old(cache.S()), cache.S(), 1) && (Room(old(cache.S()), 1) ==> ok)
    {
      ok := Save(cache, b, data, S());
      if ok {
        blk := blk[b := data];
      }
    }

    /** The bit of a block is set in its bitmap block. */
    method Mark(b: nat) returns (ok: bool)
      requires Sized(S()) && Joined(S(), cache.S()) && InData(S(), b)
      modifies cache, this`blk
      ensures ok ==>
                && S() == Stored(old(S()), BmBlk(sb, b), Bitmap.Marked(old(blk)[BmBlk(sb, b)], BmBit(sb, b)))
                && Joined(S(), cache.S())
      ensures Spends(old(cache.S()), cache.S(), 1) && (Room(old(cache.S()), 1) ==> ok)
    {
      var bm := BmBlk(sb, b);
      var data := Load(cache, bm, S());
      if data.None? {
        return false;
      }
      ok := Put(bm, Bitmap.Marked(data.value, BmBit(sb, b)));
    }

    /** balloc: the first free block, marked and cleared. */
    method Balloc(ghost o: Owner) returns (b: Option<nat>, ok: bool)
      requires Valid()
      modifies cache, this`blk, this`own
      ensures ok && b.None? ==> S() == old(S()) && Full(S()) && Joined(S(), cache.S())
      ensures ok && b.Some? ==>
                && InData(S(), b.value) && !Used(old(S()), b.value) && S() == Taken(old(S()), b.value, o)
                && Inv(S()) && SameSlots(old(S()), S()) && Joined(S(), cache.S())
      ensures Spends(old(cache.S()), cache.S(), 2) && (Room(old(cache.S()), 2) ==> ok)
    {
      ghost var s := S();
      b, ok := FindFree();
      if ok && b.Some? {
        TakenOk(s, b.value, o);
        ok := Mark(b.value);
        if ok {
          ok := Put(b.value, Zero());
          own := own[b.value := o];
        }
      }
    }

    /** The block number a slot is given, in the inode or in the table. */
    method PutSlot(i: nat, n: nat, b: nat) returns (ok: bool)
      requires Sized(S()) && Joined(S(), cache.S()) && i in inodes && n < SLOTS && b < TWO32
      requires inodes[i].indir < |blk|
      modifies cache, this`blk, this`inodes
      ensures ok ==> S() == SetSlot(old(S()), i, n, b) && Joined(S(), cache.S())
      ensures Spends(old(cache.S()), cache.S(), 1) && (Room(old(cache.S()), 1) ==> ok)
    {
      if n < DIRECT {
        inodes := inodes[i := inodes[i].(dir := inodes[i].dir[n := b])];
        return true;
      }
      var table := Load(cache, inodes[i].indir, S());
      if table.None? {
        return false;
      }
      ok := Put(inodes[i].indir, SetPtr(table.value, n - DIRECT, b));
    }

    /** The block number in slot `n`. */
    method Lookup(i: nat, n: nat) returns (b: Option<nat>)
      requires Valid() && i in inodes && n < SLOTS
      modifies cache
      ensures Valid() && Spends(old(cache.S()), cache.S(), 0) && (Room(old(cache.S()), 1) ==> b.Some?)
      ensures b.Some? ==> b.value == BlkOf(S(), i, n)
    {
      if n < DIRECT {
        return Some(inodes[i].dir[n]);
      }
      IndirReady(S(), i);
      var table := Load(cache, inodes[i].indir, S());
      if table.None? {
        return None;
      }
      return Some(PtrAt(table.value, n - DIRECT));
    }

    /** The part of _get_data_locked for an empty slot. */
    method NewData(i: nat, n: nat) returns (b: nat, res: Outcome)
      requires Valid() && i in inodes && n < SLOTS && BlkOf(S(), i, n) == 0
      modifies cache, this`blk, this`inodes, this`own
      ensures res == Passed ==> b != 0 && DataFound(old(S()), S(), i, n, b) && Joined(S(), cache.S())
      ensures res == NoSpace ==> Exhausted(old(S()), S(), i, n)
      ensures Spends(old(cache.S()), cache.S(), 3) && (Room(old(cache.S()), 3) ==> res != Panic)
    {
      ghost var s := S();
      IndirReady(s, i);
      b := 0;
      var no, ok := Balloc(Home(s, i, n));
      if !ok {
        return 0, Panic;
      }
      if no.None? {
        ok := PutSlot(i, n, NO_SPACE);
        return 0, if ok then NoSpace else Panic;
      }
      FoundNew(s, S(), i, n, no.value);
      ok := PutSlot(i, n, no.value);
      return no.value, if ok then Passed else Panic;
    }

    /** _get_data_locked for a slot below SLOTS. */
    method GetData(i: nat, n: nat) returns (b: nat, res: Outcome)
      requires Valid() && i in inodes && n < SLOTS
      modifies cache, this`blk, this`inodes, this`own
      ensures res == Passed ==> b != 0 && DataFound(old(S()), S(), i, n, b) && Joined(S(), cache.S())
      ensures res == NoSpace ==> Exhausted(old(S()), S(), i, n)
      ensures Spends(old(cache.S()), cache.S(), 3) && (Room(old(cache.S()), 3) ==> res != Panic)
    {
      var no := Lookup(i, n);
      if no.None? {
        return 0, Panic;
      }
      if no.value != 0 {
        FoundThere(S(), i, n);
        return no.value, Passed;
      }
      b, res := NewData(i, n);
    }

    // --------------------------------------------------------------------------- writing

    /** One turn of the loop of inode_write. */
    method WritePart(i: nat, off: nat, part: seq<Byte>) returns (res: Outcome)
      requires Valid() && i in inodes && part != [] && off % BLK + |part| <= BLK && off / BLK < SLOTS
      modifies cache, this`blk, this`inodes, this`own
      ensures res == Passed ==> Joined(S(), cache.S()) && Turn(old(S()), S(), i, off, part, true) == Yes
      ensures res == NoSpace ==> Turn(old(S()), S(), i, off, [], false) == Yes
      ensures Spends(old(cache.S()), cache.S(), 4) && (Room(old(cache.S()), 4) ==> res != Panic)
    {
      ghost var s := S();
      var b;
      b, res := GetData(i, off / BLK);
      if res != Passed {
        return;
      }
      ghost var s1 := S();
      SlotFound(s1, i, off / BLK);
      var data := Load(cache, b, S());
      if data.None? {
        return Panic;
      }
      var ok := Put(b, Patched(data.value, off % BLK, part));
      if !ok {
        return Panic;
      }
      PartStored(s, s1, S(), i, off, part, b);
    }

    /** The turn for the bytes of `src` from `done` on. */
    method NextPart(i: nat, src: seq<Byte>, offset: nat, done: nat, ghost s: Fs, ghost k: nat)
      returns (res: Outcome, m: nat)
      requires done < |src| && offset + |src| <= MAX_SIZE && Sized(s) && i in s.inodes
      requires Under(s, S(), cache.S(), i, offset, src, done) == Yes && Turns(offset, done, |src|, k) == Yes
      modifies cache, this`blk, this`inodes, this`own
      ensures 0 < m && done + m <= |src| && k < Parts(offset, |src|) && Turns(offset, done + m, |src|, k + 1) == Yes
      ensures res == Passed ==> Under(s, S(), cache.S(), i, offset, src, done + m) == Yes
      ensures res == NoSpace ==> !Fits(s, i, offset, |src|)
      ensures Spends(old(cache.S()), cache.S(), 4) && (Room(old(cache.S()), 4) ==> res != Panic)
    {
      assert Hidden(S(), true) && Shut(k, true);
      var off := offset + done;
      m := if |src| - done < BLK - off % BLK then |src| - done else BLK - off % BLK;
      ghost var t := S();
      InRange(off, offset, |src|);
      ProgressInv(s, t, i, offset, src, done);
      res := WritePart(i, off, src[done..done + m]);
      PartsMore(offset, done, m, |src|);
      NextEnds(s, t, S(), i, offset, src, done, m, res);
    }

    /** The loop of inode_write. */
    method WriteParts(i: nat, src: seq<Byte>, offset: nat) returns (res: Outcome)
      requires Valid() && i in inodes && offset + |src| <= MAX_SIZE
      modifies cache, this`blk, this`inodes, this`own
      ensures res == Passed ==> Joined(S(), cache.S()) && Progress(old(S()), S(), i, offset, src, |src|) == Yes
      ensures res == NoSpace ==> !Fits(old(S()), i, offset, |src|)
      ensures Spends(old(cache.S()), cache.S(), 4 * Parts(offset, |src|))
      ensures Room(old(cache.S()), 4 * Parts(offset, |src|)) ==> res != Panic
    {
      ghost var s, k := S(), 0;
      var done := 0;
      ProgressNone(s, i, offset, src);
      while done < |src|
        invariant 0 <= done <= |src| && Under(s, S(), cache.S(), i, offset, src, done) == Yes
        invariant Turns(offset, done, |src|, k) == Yes && 0 <= k <= Parts(offset, |src|)
        invariant Spends(old(cache.S()), cache.S(), 4 * k)
      {
        var m;
        res, m := NextPart(i, src, offset, done, s, k);
        if res != Passed {
          return;
        }
        done, k := done + m, k + 1;
      }
      assert Hidden(S(), true);
      return Passed;
    }

    /** inode_write */
    method Write(i: nat, src: seq<Byte>, offset: nat) returns (res: Outcome)
      requires Valid() && i in inodes && offset <= inodes[i].size && offset + |src| <= MAX_SIZE
      modifies cache, this`blk, this`inodes, this`own
      ensures res != Panic ==> (res == Passed <==> Fits(old(S()), i, offset, |src|))
      ensures res == Passed ==>
                && Valid() && i in inodes && inodes[i].size >= offset + |src|
                && Content(S(), i) == Written(Content(old(S()), i), offset, src)
                && forall j | j != i :: Content(S(), j) == Overlaid(old(S()), i, j, offset, src)
      ensures Spends(old(cache.S()), cache.S(), 4 * Parts(offset, |src|))
      ensures Room(old(cache.S()), 4 * Parts(offset, |src|)) ==> res != Panic
    {
      ghost var s := S();
      res := WriteParts(i, src, offset);
      if res == Passed {
        ThroughEnds(s, S(), i, offset, src);
        if inodes[i].size < offset + |src| {
          inodes := inodes[i := inodes[i].(size := offset + |src|)];
        }
      }
    }

    // --------------------------------------------------------------------------- reading

    /** One turn of the loop of inode_read. */
    method ReadPart(i: nat, off: nat, m: nat) returns (part: Option<seq<Byte>>)
      requires Valid() && i in inodes && off + m <= inodes[i].size && m > 0 && off % BLK + m <= BLK
      modifies cache
      ensures Valid() && Spends(old(cache.S()), cache.S(), 0) && (Room(old(cache.S()), 1) ==> part.Some?)
      ensures part.Some? ==> part.value == Content(S(), i)[off..off + m]
    {
      ReadReady(S(), i, off);
      PartRead(S(), i, off, m);
      var b := Lookup(i, off / BLK);
      if b.None? {
        return None;
      }
      var data := Load(cache, b.value, S());
      if data.None? {
        return None;
      }
      return Some(data.value[off % BLK..off % BLK + m]);
    }

    /** inode_read; None only when the cache finds no buffer. */
    method Read(i: nat, offset: nat, count: nat) returns (res: Option<seq<Byte>>)
      requires Valid() && i in inodes && offset + count <= inodes[i].size
      modifies cache
      ensures Valid() && Spends(old(cache.S()), cache.S(), 0) && (Room(old(cache.S()), 1) ==> res.Some?)
      ensures res.Some? ==> res.value == Content(S(), i)[offset..offset + count]
    {
      var done, off, dst := 0, offset, [];
      ghost var c := Content(S(), i);
      while done < count
        invariant 0 <= done <= count && off == offset + done && dst == c[offset..off]
        invariant Holds(S(), cache.S()) == Yes && Spends(old(cache.S()), cache.S(), 0)
      {
        var part := ReadNext(i, off, count - done, c);
        if part.None? {
          assert Hidden(S(), true);
          return None;
        }
        var m := |part.value|;
        Extended(c, offset, off, off + m);
        dst := dst + part.value;
        done, off := done + m, off + m;
      }
      assert Hidden(S(), true);
      return Some(dst);
    }

    /** The turn for the `left` bytes from `off` on. */
    method ReadNext(i: nat, off: nat, left: nat, ghost c: seq<Byte>) returns (part: Option<seq<Byte>>)
      requires Holds(S(), cache.S()) == Yes && i in inodes && off + left <= inodes[i].size && left > 0
      requires Sized(S()) && c == Content(S(), i)
      modifies cache
      ensures Holds(S(), cache.S()) == Yes && Spends(old(cache.S()), cache.S(), 0)
      ensures Room(old(cache.S()), 1) ==> part.Some?
      ensures part.Some? ==> 0 < |part.value| <= left && part.value == c[off..off + |part.value|]
    {
      assert Hidden(S(), true);
      part := ReadPart(i, off, if left < BLK - off % BLK then left else BLK - off % BLK);
    }

    /** Other blocks pass through the cache. */
    method Pass(others: seq<nat>)
      requires Valid()
      modifies cache
      ensures Valid() && Spends(old(cache.S()), cache.S(), 0)
    {
      var k := 0;
      while k < |others|
        invariant 0 <= k <= |others| && Valid() && Spends(old(cache.S()), cache.S(), 0)
      {
        if others[k] < |cache.disk| {
          var _ := Load(cache, others[k], S());
        }
        k := k + 1;
      }
    }

    /** A read after a write, with any blocks passing through the cache in
        between: the bytes come back, whichever of them reached the disk. With
        buffers to spare it fails only when the disk is full. */
    method WriteRead(i: nat, src: seq<Byte>, offset: nat, others: seq<nat>) returns (back: Option<seq<Byte>>)
      requires Valid() && i in inodes && offset <= inodes[i].size && offset + |src| <= MAX_SIZE
      modifies cache, this`blk, this`inodes, this`own
      ensures back.Some? ==> back.value == src
      ensures Room(old(cache.S()), 4 * Parts(offset, |src|) + 1) ==>
                (back.Some? <==> Fits(old(S()), i, offset, |src|))
    {
      ghost var s := S();
      var res := Write(i, src, offset);
      if res != Passed {
        return None;
      }
      Pass(others);
      back := Read(i, offset, |src|);
      assert Written(Content(s, i), offset, src)[offset..offset + |src|] == src;
    }
  }

  /** The blocks that `count` bytes from `offset` on lie in. */
  function Parts(offset: nat, count: nat): nat {
    if count == 0 then 0 else Blocks(offset + count) - offset / BLK
  }

  lemma {:induction false} Extended(c: seq<Byte>, x: nat, y: nat, z: nat)
    requires x <= y <= z <= |c|
    ensures c[x..y] + c[y..z] == c[x..z]
  {
  }

  /** Between two turns the next byte starts a block. */
  predicate Even(offset: nat, done: nat, count: nat) {
    done == 0 || done == count || (offset + done) % BLK == 0
  }

  /** `k` turns have brought the loop to `done`, folded. */
  ghost function Turns(offset: nat, done: nat, count: nat, k: nat): Verdict {
    if forall open {:trigger Shut(k, open)} :: Shut(k, open) ==> Even(offset, done, count) && k == Parts(offset, done)
    then Yes else No
  }

  ghost predicate Shut(k: nat, open: bool) {
    true
  }

  lemma {:induction false} PartsMore(offset: nat, done: nat, m: nat, count: nat)
    requires 0 < m && done + m <= count && done < count
    requires done == 0 || (offset + done) % BLK == 0
    requires m == if count - done < BLK - (offset + done) % BLK then count - done else BLK - (offset + done) % BLK
    ensures Even(offset, done + m, count)
    ensures Parts(offset, done + m) == Parts(offset, done) + 1 <= Parts(offset, count)
  {
  }

  lemma {:induction false} FoundThere(fs: Fs, i: nat, n: nat)
    requires Inv(fs) && BlkOf(fs, i, n) != 0
    ensures DataFound(fs, fs, i, n, BlkOf(fs, i, n))
  {
    forall j, m ensures SlottedAt(fs, fs, i, n, j, m) {
      if SameSlot(fs, i, n, j, m) {
        SlotFound(fs, i, n);
        SharedEmpty(fs, i, n, j);
      }
    }
  }

  /** A turn that finds no block shows that the write does not fit. */
  lemma {:induction false} Refused(s: Fs, t: Fs, s': Fs, i: nat, offset: nat, src: seq<Byte>, done: nat)
    requires Sized(s) && done < |src| && Progress(s, t, i, offset, src, done) == Yes
    requires Turn(t, s', i, offset + done, [], false) == Yes
    ensures !Fits(s, i, offset, |src|)
  {
    WriteFits(s, t, i, offset, src, done, s');
  }

  lemma {:induction false} NextEnds(s: Fs, t: Fs, s': Fs, i: nat, offset: nat, src: seq<Byte>, done: nat, m: nat,
                                    res: Outcome)
    requires Sized(s) && done < done + m <= |src| && Progress(s, t, i, offset, src, done) == Yes
    requires res == Passed ==> Turn(t, s', i, offset + done, src[done..done + m], true) == Yes
    requires res == NoSpace ==> Turn(t, s', i, offset + done, [], false) == Yes
    ensures res == Passed ==> Progress(s, s', i, offset, src, done + m) == Yes
    ensures res == NoSpace ==> !Fits(s, i, offset, |src|)
  {
    if res == Passed {
      ProgressMore(s, t, s', i, offset, src, done, m);
    } else if res == NoSpace {
      Refused(s, t, s', i, offset, src, done);
    }
  }

  lemma {:induction false} ThroughEnds(s: Fs, t: Fs, i: nat, offset: nat, src: seq<Byte>)
    requires Inv(s) && i in s.inodes && offset <= s.inodes[i].size && offset + |src| <= MAX_SIZE
    requires Progress(s, t, i, offset, src, |src|) == Yes
    ensures i in t.inodes && Inv(Grow(t, i, offset + |src|)) && Fits(s, i, offset, |src|)
    ensures Content(Grow(t, i, offset + |src|), i) == Written(Content(s, i), offset, src)
    ensures forall j | j != i :: Content(Grow(t, i, offset + |src|), j) == Overlaid(s, i, j, offset, src)
  {
    WriteOutcome(s, t, t, i, offset, src, |src|);
    assert src[..|src|] == src;
  }
}
