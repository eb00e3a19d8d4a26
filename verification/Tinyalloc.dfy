/** The kernel heap (tinyalloc): first fit over a sorted free list, with
    splitting, merging, and a top that moves both ways. */
module Tinyalloc {
  import opened Common
  import opened HeapLayout
  import opened HeapSteps


  /** (num + alignment - 1) & -alignment, for a power of two. */
  function RoundUp(num: nat, alignment: nat): nat
    requires alignment > 0
  {
    (num + alignment - 1) / alignment * alignment
  }

  lemma {:induction false} RoundsUp(num: nat, alignment: nat)
    requires alignment > 0
    ensures num <= RoundUp(num, alignment) < num + alignment && Aligned(RoundUp(num, alignment), alignment)
  {
    var x := num + alignment - 1;
    assert x == x / alignment * alignment + x % alignment;
    assert Times(RoundUp(num, alignment), x / alignment, alignment);
  }

  /** The slots of a block table of length `n`. */
  ghost function Slots(n: nat): multiset<nat> {
    if n == 0 then multiset{} else Slots(n - 1) + multiset{n - 1}
  }

  lemma {:induction false} SlotsSize(n: nat)
    ensures |Slots(n)| == n
  {
    if n > 0 {
      SlotsSize(n - 1);
    }
  }

  /** Each descriptor is in exactly one of the three lists. */
  ghost predicate Conserved(free: seq<Block>, used: seq<Block>, blank: seq<nat>, n: nat) {
    Ids(free) + Ids(used) + multiset(blank) == Slots(n)
  }

  /** alloc_block can take block `b` for `n` bytes. */
  predicate Fits(b: Block, n: nat, top: nat, limit: nat) {
    (End(b) >= top && b.addr + n <= limit) || b.size >= n
  }

  /** Free block `k` was the first that would do for `n` bytes, and `b` was made
      of it. The last block takes the top with it. Of another one the rest stays
      free, where it was, if a record is left for it and it is not too small. */
  ghost predicate Served(free: seq<Block>, blank: seq<nat>, top: nat, limit: nat, thresh: nat, n: nat, k: nat, b: Block,
                         free': seq<Block>, blank': seq<nat>, top': nat) {
    && k < |free|
    && (forall j | 0 <= j < k :: free[j].size < n && (free[j].addr + free[j].size < top || free[j].addr + n > limit))
    && var x := free[k];
    && b.id == x.id && b.addr == x.addr
    && if x.addr + x.size >= top && x.addr + n <= limit
       then b.size == n && top' == x.addr + n && free' == free[..k] + free[k + 1..] && blank' == blank
       else
         && x.size >= n && top' == top && TotalSize(free') + b.size == TotalSize(free)
         && if blank != [] && x.size >= n + thresh
            then b.size == n && free' == free[k := Block(blank[0], x.addr + n, x.size - n)] && blank' == blank[1..]
            else b.size == x.size && free' == free[..k] + free[k + 1..] && blank' == blank
  }

  /** No free block would do, and `b` is a new one at the top. */
  ghost predicate Added(free: seq<Block>, blank: seq<nat>, top: nat, limit: nat, n: nat, b: Block,
                         free': seq<Block>, blank': seq<nat>, top': nat) {
    && (forall x | x in free :: x.size < n && (x.addr + x.size < top || x.addr + n > limit))
    && blank != [] && b == Block(blank[0], top, n)
    && free' == free && blank' == blank[1..] && top' == top + n
  }

  predicate Disjoint(x: Block, y: Block) {
    End(x) <= y.addr || End(y) <= x.addr
  }

  class Heap {
    var free: seq<Block>
    var used: seq<Block>
    var blank: seq<nat>
    var top: nat
    const limit: nat
    const splitThresh: nat
    const alignment: nat
    const maxBlocks: nat
    ghost const base: nat
    ghost var cells: seq<Cell>

    /** insert_block */
    method InsertBlock(b: Block)
      modifies this`free
      ensures free == Insert(old(free), b)
    {
      var i := 0;
      while i < |free| && !(b.addr <= free[i].addr)
        invariant 0 <= i <= |free|
        invariant Insert(free, b) == free[..i] + Insert(free[i..], b)
      {
        assert free[i..][1..] == free[i + 1..];
        i := i + 1;
      }
      free := free[..i] + [b] + free[i..];
    }

    /** release_blocks on the descriptors from `i` up to `j`. */
    method ReleaseBlocks(i: nat, j: nat)
      requires i <= j <= |free|
      modifies this`blank
      ensures blank == Pushed(old(free)[i..j], old(blank))
    {
      var k := i;
      while k < j
        invariant i <= k <= j
        invariant Pushed(free[i..j], old(blank)) == Pushed(free[k..j], blank)
      {
        assert free[k..j][1..] == free[k + 1..j];
        blank := [free[k].id] + blank;
        k := k + 1;
      }
      assert free[k..j] == [];
    }

    /** One turn of the outer loop of compact: the run of touching blocks that
        starts at `i` becomes one block. */
    method MergeRun(i: nat)
      requires i < |free|
      modifies this`free, this`blank
      ensures i < |free| <= |old(free)| && free[..i] == old(free)[..i]
      ensures Compact(old(free)[i..]) == [free[i]] + Compact(free[i + 1..])
      ensures Released(old(free)[i..], old(blank)) == Released(free[i + 1..], blank)
    {
      var j := RunEnd(free, i);
      ghost var run, next := free[i..j + 1], free[j + 1..];
      MaximalRun(run, next, blank);
      RunCut(free, i, j);
      if j != i {
        var size := free[j].addr - free[i].addr + free[j].size;
        ReleaseBlocks(i + 1, j + 1);
        free := free[..i] + [Block(free[i].id, free[i].addr, size)] + free[j + 1..];
      }
      assert free[i + 1..] == next;
    }

    /** compact */
    method CompactFree()
      modifies this`free, this`blank
      ensures free == Compact(old(free)) && blank == Released(old(free), old(blank))
    {
      var i := 0;
      ghost var all, done := Compact(free), [];
      while i < |free|
        invariant 0 <= i <= |free| && done == free[..i]
        invariant all == done + Compact(free[i..])
        invariant Released(old(free), old(blank)) == Released(free[i..], blank)
        decreases |free| - i
      {
        ghost var before := free[i..];
        MergeRun(i);
        assert done + Compact(before) == (done + [free[i]]) + Compact(free[i + 1..]);
        done := done + [free[i]];
        i := i + 1;
      }
      assert free[i..] == [];
    }

    ghost predicate Valid()
      reads this
    {
      splitThresh > 0 && alignment > 0 &&
        Ok(Bounds(base, limit, alignment, maxBlocks), Lists(free, used, blank), top, cells)
    }

    /** ta_init: the heap record and the block table sit at the start, what
        follows them is the heap. */
    constructor (start: nat, limit: nat, blocks: nat, splitThresh: nat, alignment: nat)
      requires blocks > 0 && splitThresh > 0 && alignment > 0
      requires start + HEAP_SIZE + BLOCK_SIZE * blocks <= limit
      requires Aligned(start + HEAP_SIZE + BLOCK_SIZE * blocks, alignment)
      ensures Valid() && free == [] && used == [] && |blank| == blocks
      ensures top == base == start + HEAP_SIZE + BLOCK_SIZE * blocks
      ensures this.limit == limit && this.splitThresh == splitThresh && this.alignment == alignment
    {
      free, used, cells := [], [], [];
      var list := LinkAll(blocks);
      blank := list;
      top := start + HEAP_SIZE + BLOCK_SIZE * blocks;
      base := start + HEAP_SIZE + BLOCK_SIZE * blocks;
      this.limit, this.splitThresh, this.alignment, maxBlocks := limit, splitThresh, alignment, blocks;
    }

    /** The rest of block `k` is big enough for a block of its own. */
    method TakeSplit(k: nat, n: nat) returns (b: Block)
      requires Valid() && k < |free| && 0 < n && n + splitThresh <= free[k].size && Aligned(n, alignment) && blank != []
      modifies this`free, this`used, this`blank, this`cells
      ensures Valid() && b == Front(old(free)[k], n) && used == [b] + old(used)
      ensures free == old(free)[k := Back(old(free)[k], n, old(blank)[0])] && blank == old(blank)[1..]
    {
      SplitList(Bounds(base, limit, alignment, maxBlocks), Lists(free, used, blank), top, cells, k, n);
      ghost var i := SplitOk(Bounds(base, limit, alignment, maxBlocks), Lists(free, used, blank), top, cells, k, n);
      b := Front(free[k], n);
      var rest := Back(free[k], n, blank[0]);
      cells := SplitCells(cells, i, n, rest.id);
      free := Unlinked(free, k);
      used := [b] + used;
      blank := blank[1..];
      InsertBlock(rest);
      CompactFree();
    }

    /** Block `k` is handed out as it is. */
    method TakeWhole(k: nat) returns (b: Block)
      requires Valid() && k < |free|
      modifies this`free, this`used, this`cells
      ensures Valid() && b == old(free)[k] && used == [b] + old(used) && free == Unlinked(old(free), k)
    {
      ghost var i := WholeOk(Bounds(base, limit, alignment, maxBlocks), Lists(free, used, blank), top, cells, k);
      b := free[k];
      cells := UseCells(cells, i);
      free := Unlinked(free, k);
      used := [b] + used;
    }

    /** Block `k` is the last one: it gets the size asked for, and the top moves. */
    method TakeTop(k: nat, n: nat) returns (b: Block)
      requires Valid() && k < |free| && 0 < n && Aligned(n, alignment)
      requires End(free[k]) >= top && free[k].addr + n <= limit
      modifies this`free, this`used, this`cells, this`top
      ensures Valid() && b == Front(old(free)[k], n) && used == [b] + old(used) && top == End(b)
      ensures free == Unlinked(old(free), k)
    {
      ghost var i := TopOk(Bounds(base, limit, alignment, maxBlocks), Lists(free, used, blank), top, cells, k, n);
      b := Front(free[k], n);
      cells := TopCells(cells, i, n);
      free := Unlinked(free, k);
      used := [b] + used;
      top := End(b);
    }

    /** No free block will do: a new block at the top. */
    method TakeFresh(n: nat) returns (b: Block)
      requires Valid() && 0 < n && Aligned(n, alignment) && blank != [] && top + n <= limit
      modifies this`used, this`blank, this`cells, this`top
      ensures Valid() && b == Block(old(blank)[0], old(top), n) && used == [b] + old(used) && top == old(top) + n
      ensures blank == old(blank)[1..]
    {
      FreshOk(Bounds(base, limit, alignment, maxBlocks), Lists(free, used, blank), top, cells, n);
      b := Block(blank[0], top, n);
      cells := cells + [Cell(b, true)];
      blank := blank[1..];
      used := [b] + used;
      top := top + n;
    }

    /** Block `k` is the first that will do. */
    method TakeFrom(k: nat, n: nat) returns (b: Block)
      requires Valid() && k < |free| && 0 < n && Aligned(n, alignment) && Fits(free[k], n, top, limit)
      requires forall j | 0 <= j < k :: !Fits(free[j], n, top, limit)
      modifies this
      ensures Valid() && used == [b] + old(used) && b.addr == old(free)[k].addr
      ensures Served(old(free), old(blank), old(top), limit, splitThresh, n, k, b, free, blank, top)
    {
      var x := free[k];
      var isTop := End(x) >= top && x.addr + n <= limit;
      TakenTotal(free, k);
      if isTop {
        b := TakeTop(k, n);
      } else if blank != [] && x.size - n >= splitThresh {
        SplitTotal(free, k, Back(x, n, blank[0]));
        b := TakeSplit(k, n);
      } else {
        b := TakeWhole(k);
      }
    }

    /** alloc_block: the first block that fits, else a new one at the top. A
        free block of the size asked for is never passed over. */
    method AllocBlock(num: nat) returns (b: Option<Block>)
      requires Valid() && num > 0
      modifies this
      ensures Valid()
      ensures var n := RoundUp(num, alignment);
              && (b.None? <==> (forall x | x in old(free) ::
                                  x.size < n && (x.addr + x.size < old(top) || x.addr + n > limit)) &&
                               (old(blank) == [] || old(top) + n > limit))
              && (b.None? ==> free == old(free) && used == old(used) && blank == old(blank) && top == old(top))
              && (b.Some? ==>
                    && used == [b.value] + old(used)
                    && if b.value.addr == old(top)
                       then Added(old(free), old(blank), old(top), limit, n, b.value, free, blank, top)
                       else exists k: nat ::
                              Served(old(free), old(blank), old(top), limit, splitThresh, n, k, b.value, free, blank,
                                     top))
    {
      var n := RoundUp(num, alignment);
      RoundsUp(num, alignment);
      FreeBelow(Bounds(base, limit, alignment, maxBlocks), Lists(free, used, blank), top, cells);
      var k := FirstFit(free, n, top, limit);
      if k < |free| {
        var block := TakeFrom(k, n);
        return Some(block);
      }
      if blank != [] && top + n <= limit {
        var block := TakeFresh(n);
        return Some(block);
      }
      return None;
    }

    /** ta_free: gives back the live block at `addr`, if there is one. */
    method TaFree(addr: nat) returns (ok: bool)
      requires Valid()
      modifies this`free, this`used, this`blank, this`cells
      ensures Valid()
      ensures ok <==> exists b :: b in old(used) && b.addr == addr
      ensures !ok ==> free == old(free) && used == old(used) && blank == old(blank)
      ensures ok ==> exists b ::
                b in old(used) && b.addr == addr && multiset(used) + multiset{b} == multiset(old(used)) &&
                TotalSize(free) == TotalSize(old(free)) + b.size
    {
      var k := FindAddr(used, addr);
      if k == |used| {
        return false;
      }
      ghost var b := used[k];
      GiveBack(k);
      assert b in old(used) && b.addr == addr && multiset(used) + multiset{b} == multiset(old(used));
      return true;
    }

    /** The live block `k` goes to the free list, which is compacted. */
    method GiveBack(k: nat)
      requires Valid() && k < |used|
      modifies this`free, this`used, this`blank, this`cells
      ensures Valid() && multiset(used) + multiset{old(used)[k]} == multiset(old(used))
      ensures TotalSize(free) == TotalSize(old(free)) + old(used)[k].size
    {
      var b := used[k];
      ghost var i := GiveOk(Bounds(base, limit, alignment, maxBlocks), Lists(free, used, blank), top, cells, k);
      cells := MergeFree(OpenCells(cells, i));
      UnlinkedMultiset(used, k);
      used := Unlinked(used, k);
      GivenTotal(free, b);
      InsertBlock(b);
      CompactFree();
    }

    /** ta_check holds of every heap. */
    method TaCheck() returns (ok: bool)
      requires Valid()
      ensures ok
    {
      BlocksConserved(Bounds(base, limit, alignment, maxBlocks), Lists(free, used, blank), top, cells);
      return maxBlocks == |free| + |used| + |blank|;
    }
  }

  /** The search loop of ta_free. */
  method FindAddr(list: seq<Block>, addr: nat) returns (k: nat)
    ensures k <= |list| && (k < |list| ==> list[k].addr == addr)
    ensures forall j | 0 <= j < k :: list[j].addr != addr
  {
    k := 0;
    while k < |list| && addr != list[k].addr
      invariant 0 <= k <= |list| && forall j | 0 <= j < k :: list[j].addr != addr
    {
      k := k + 1;
    }
  }

  function OpenCells(cells: seq<Cell>, i: nat): seq<Cell>
    requires i < |cells|
  {
    cells[..i] + [Cell(cells[i].b, false)] + cells[i + 1..]
  }

  lemma {:induction false} UnlinkedMultiset(list: seq<Block>, k: nat)
    requires k < |list|
    ensures multiset(Unlinked(list, k)) + multiset{list[k]} == multiset(list)
  {
    assert list == list[..k] + [list[k]] + list[k + 1..];
  }

  lemma {:induction false} GiveOk(g: Bounds, l: Lists, top: nat, cells: seq<Cell>, k: nat) returns (i: nat)
    requires Ok(g, l, top, cells) && k < |l.used|
    ensures i < |cells| && cells[i] == Cell(l.used[k], true)
    ensures var wider := Insert(l.free, l.used[k]);
            Ok(g, Lists(Compact(wider), Unlinked(l.used, k), Released(wider, l.blank)), top,
              MergeFree(OpenCells(cells, i)))
  {
    Unfold(g, l, top, cells);
    var b := l.used[k];
    assert b in multiset(l.used);
    i := LocateUsed(cells, b);
    FreeCell(cells, g.base, top, g.alignment, i);
    UnlinkedMultiset(l.used, k);
    GiveConserves(l.free, l.used, l.blank, k, g.slots);
    CompactConserves(Insert(l.free, b), Unlinked(l.used, k), l.blank, g.slots);
    SameRest(multiset(Unlinked(l.used, k)), multiset(UsedOf(MergeFree(OpenCells(cells, i)))), b);
  }

  lemma {:induction false} SameRest(a: multiset<Block>, c: multiset<Block>, b: Block)
    requires a + multiset{b} == c + multiset{b}
    ensures a == c
  {
    assert a == (a + multiset{b}) - multiset{b};
    assert c == (c + multiset{b}) - multiset{b};
  }

  lemma {:induction false} GiveConserves(free: seq<Block>, used: seq<Block>, blank: seq<nat>, k: nat, slots: nat)
    requires k < |used| && Conserved(free, used, blank, slots)
    ensures Conserved(Insert(free, used[k]), Unlinked(used, k), blank, slots)
  {
    TakeIds(used, k);
    InsertIds(free, used[k]);
  }

  function UseCells(cells: seq<Cell>, i: nat): seq<Cell>
    requires i < |cells|
  {
    cells[..i] + [Cell(cells[i].b, true)] + cells[i + 1..]
  }

  /** The search loop of alloc_block. */
  method FirstFit(free: seq<Block>, n: nat, top: nat, limit: nat) returns (k: nat)
    ensures k <= |free| && (k < |free| ==> Fits(free[k], n, top, limit))
    ensures forall j | 0 <= j < k :: !Fits(free[j], n, top, limit)
  {
    k := 0;
    while k < |free| && !Fits(free[k], n, top, limit)
      invariant 0 <= k <= |free| && forall j | 0 <= j < k :: !Fits(free[j], n, top, limit)
    {
      k := k + 1;
    }
  }

  /** Free blocks start below the top. */
  lemma {:induction false} FreeBelow(g: Bounds, l: Lists, top: nat, cells: seq<Cell>)
    requires Ok(g, l, top, cells)
    ensures forall x | x in l.free :: x.addr < top
  {
    Unfold(g, l, top, cells);
    forall x | x in l.free ensures x.addr < top {
      ListedWithin(cells, g.base, top, x);
    }
  }

  lemma {:induction false} TotalSplit(a: seq<Block>, b: seq<Block>)
    ensures TotalSize(a + b) == TotalSize(a) + TotalSize(b)
  {
    if a == [] {
      assert a + b == b;
    } else {
      assert (a + b)[1..] == a[1..] + b;
      TotalSplit(a[1..], b);
    }
  }

  lemma {:induction false} TakenTotal(list: seq<Block>, k: nat)
    requires k < |list|
    ensures TotalSize(Unlinked(list, k)) + list[k].size == TotalSize(list)
  {
    assert list == list[..k] + list[k..] && list[k..][1..] == list[k + 1..];
    TotalSplit(list[..k], list[k..]);
    TotalSplit(list[..k], list[k + 1..]);
  }

  /** Sorting a block in and merging neighbours lose no byte. */
  lemma {:induction false} GivenTotal(list: seq<Block>, b: Block)
    ensures TotalSize(Compact(Insert(list, b))) == TotalSize(list) + b.size
  {
    InsertTotal(list, b);
    CompactTotal(Insert(list, b));
  }

  lemma {:induction false} InsertTotal(list: seq<Block>, b: Block)
    ensures TotalSize(Insert(list, b)) == TotalSize(list) + b.size
  {
    if list == [] || b.addr <= list[0].addr {
      assert ([b] + list)[1..] == list;
    } else {
      InsertTotal(list[1..], b);
      assert ([list[0]] + Insert(list[1..], b))[1..] == Insert(list[1..], b);
    }
  }

  lemma {:induction false} CompactTotal(list: seq<Block>)
    ensures TotalSize(Compact(list)) == TotalSize(list)
    decreases |list|
  {
    if |list| > 1 {
      if Touch(list[0], list[1]) {
        var joined := [Join(list[0], list[1])] + list[2..];
        assert joined[1..] == list[1..][1..];
        CompactTotal(joined);
      } else {
        CompactTotal(list[1..]);
        assert ([list[0]] + Compact(list[1..]))[1..] == Compact(list[1..]);
      }
    }
  }

  lemma {:induction false} SplitTotal(list: seq<Block>, k: nat, b: Block)
    requires k < |list|
    ensures TotalSize(list[k := b]) + list[k].size == TotalSize(list) + b.size
  {
    TakenTotal(list, k);
    TakenTotal(list[k := b], k);
    assert Unlinked(list[k := b], k) == Unlinked(list, k);
  }

  /** A list without neighbours that touch is compact. */
  lemma {:induction false} CompactIdle(list: seq<Block>, blank: seq<nat>)
    requires forall i, j | 0 <= i < j < |list| :: End(list[i]) < list[j].addr
    ensures Compact(list) == list && Released(list, blank) == blank
  {
    if |list| > 1 {
      assert forall i | 0 <= i < |list| - 1 :: list[1..][i] == list[i + 1];
      CompactIdle(list[1..], blank);
    }
  }

  /** The rest of a split block takes its place in the free list. */
  lemma {:induction false} SplitList(g: Bounds, l: Lists, top: nat, cells: seq<Cell>, k: nat, n: nat)
    requires Ok(g, l, top, cells) && k < |l.free| && 0 < n < l.free[k].size && l.blank != []
    ensures var rest := Back(l.free[k], n, l.blank[0]);
            var wider := Insert(Unlinked(l.free, k), rest);
            Compact(wider) == l.free[k := rest] && Released(wider, l.blank[1..]) == l.blank[1..]
  {
    FreeListSorted(g, l, top, cells);
    var rest := Back(l.free[k], n, l.blank[0]);
    var list := l.free[k := rest];
    forall x | x in l.free[..k] ensures x.addr < rest.addr {
      var j :| 0 <= j < k && l.free[j] == x;
    }
    forall x | x in l.free[k + 1..] ensures rest.addr <= x.addr {
      var j :| k < j < |l.free| && l.free[j] == x;
    }
    InsertBetween(l.free[..k], rest, l.free[k + 1..]);
    assert list == l.free[..k] + [rest] + l.free[k + 1..];
    CompactIdle(list, l.blank[1..]);
  }

  lemma {:induction false} WholeOk(g: Bounds, l: Lists, top: nat, cells: seq<Cell>, k: nat) returns (i: nat)
    requires Ok(g, l, top, cells) && k < |l.free|
    ensures i < |cells| && cells[i].b == l.free[k]
    ensures Ok(g, Lists(Unlinked(l.free, k), [l.free[k]] + l.used, l.blank), top, UseCells(cells, i))
  {
    Unfold(g, l, top, cells);
    i := LocateFree(cells, k);
    UseCell(cells, g.base, top, g.alignment, i);
    TakeConserves(l.free, l.used, l.blank, k, l.free[k], g.slots);
    UsedGrows(l.used, UsedOf(cells), UsedOf(UseCells(cells, i)), l.free[k]);
  }

  lemma {:induction false} Fold(g: Bounds, l: Lists, top: nat, cells: seq<Cell>)
    requires Sound(g, l, top, cells)
    ensures Ok(g, l, top, cells)
  {
  }

  lemma {:induction false} TopFacts(g: Bounds, l: Lists, top: nat, cells: seq<Cell>, k: nat, n: nat, i: nat)
    requires Sound(g, l, top, cells) && k < |l.free| && 0 < n && Aligned(n, g.alignment) && End(l.free[k]) >= top
    requires i < |cells| && cells[i] == Cell(l.free[k], false)
    requires FreeOf(cells[..i]) == l.free[..k] && FreeOf(cells[i + 1..]) == l.free[k + 1..]
    ensures var b, cells' := Front(l.free[k], n), TopCells(cells, i, n);
            && Laid(cells', g.base, End(b), g.alignment) && FreeOf(cells') == Unlinked(l.free, k)
            && multiset([b] + l.used) == multiset(UsedOf(cells'))
  {
    ResizeTop(cells, g.base, top, g.alignment, i, n);
    UsedGrows(l.used, UsedOf(cells), UsedOf(TopCells(cells, i, n)), Front(l.free[k], n));
  }

  lemma {:induction false} TopOk(g: Bounds, l: Lists, top: nat, cells: seq<Cell>, k: nat, n: nat) returns (i: nat)
    requires Ok(g, l, top, cells) && k < |l.free| && 0 < n && Aligned(n, g.alignment)
    requires End(l.free[k]) >= top && l.free[k].addr + n <= g.limit
    ensures i < |cells| && cells[i].b == l.free[k]
    ensures var b := Front(l.free[k], n);
            Ok(g, Lists(Unlinked(l.free, k), [b] + l.used, l.blank), End(b), TopCells(cells, i, n))
  {
    Unfold(g, l, top, cells);
    i := LocateFree(cells, k);
    TopFacts(g, l, top, cells, k, n, i);
    var b := Front(l.free[k], n);
    TakeConserves(l.free, l.used, l.blank, k, b, g.slots);
    Fold(g, Lists(Unlinked(l.free, k), [b] + l.used, l.blank), End(b), TopCells(cells, i, n));
  }

  lemma {:induction false} FreshOk(g: Bounds, l: Lists, top: nat, cells: seq<Cell>, n: nat)
    requires Ok(g, l, top, cells) && 0 < n && Aligned(n, g.alignment) && l.blank != [] && top + n <= g.limit
    ensures var b := Block(l.blank[0], top, n);
            Ok(g, Lists(l.free, [b] + l.used, l.blank[1..]), top + n, cells + [Cell(b, true)])
  {
    Unfold(g, l, top, cells);
    var b := Block(l.blank[0], top, n);
    Extend(cells, g.base, top, g.alignment, n, l.blank[0]);
    FreshConserves(l.free, l.used, l.blank, b, g.slots);
    UsedGrows(l.used, UsedOf(cells), UsedOf(cells + [Cell(b, true)]), b);
  }

  lemma {:induction false} FreshConserves(free: seq<Block>, used: seq<Block>, blank: seq<nat>, b: Block, slots: nat)
    requires blank != [] && b.id == blank[0] && Conserved(free, used, blank, slots)
    ensures Conserved(free, [b] + used, blank[1..], slots)
  {
    IdsCons(b, used);
    assert blank == [blank[0]] + blank[1..];
    assert multiset(blank) == multiset{blank[0]} + multiset(blank[1..]);
  }

  lemma {:induction false} UsedGrows(used: seq<Block>, was: seq<Block>, now: seq<Block>, b: Block)
    requires multiset(used) == multiset(was) && multiset(now) == multiset(was) + multiset{b}
    ensures multiset([b] + used) == multiset(now)
  {
    assert multiset([b] + used) == multiset{b} + multiset(used);
  }

  /** The inner loop of compact: the last block of the run that starts at `i`. */
  method RunEnd(list: seq<Block>, i: nat) returns (j: nat)
    requires i < |list|
    ensures i <= j < |list| && Run(list[i..j + 1]) && (j + 1 < |list| ==> !Touch(list[j], list[j + 1]))
  {
    j := i;
    while j + 1 < |list| && Touch(list[j], list[j + 1])
      invariant i <= j < |list|
      invariant Run(list[i..j + 1])
    {
      assert list[i..j + 2] == list[i..j + 1] + [list[j + 1]];
      j := j + 1;
    }
  }

  /** The linking loop of ta_init. */
  method LinkAll(blocks: nat) returns (list: seq<nat>)
    requires blocks > 0
    ensures |list| == blocks && multiset(list) == Slots(blocks)
  {
    list := [0];
    var i: nat := 1;
    while i < blocks
      invariant 1 <= i <= blocks && |list| == i && multiset(list) == Slots(i)
    {
      assert multiset(list + [i]) == multiset(list) + multiset{i};
      assert Slots(i + 1) == Slots(i) + multiset{i};
      list, i := list + [i], i + 1;
    }
  }

  datatype Bounds = Bounds(base: nat, limit: nat, alignment: nat, slots: nat)

  datatype Lists = Lists(free: seq<Block>, used: seq<Block>, blank: seq<nat>)

  /** The heap invariant. (The quantifier only keeps the definition folded
      where it is not needed.) */
  ghost predicate Ok(g: Bounds, l: Lists, top: nat, cells: seq<Cell>) {
    forall open {:trigger Unsealed(cells, open)} :: Unsealed(cells, open) ==> Sound(g, l, top, cells)
  }

  ghost predicate Unsealed(cells: seq<Cell>, open: bool) {
    true
  }

  lemma {:induction false} Unfold(g: Bounds, l: Lists, top: nat, cells: seq<Cell>)
    requires Ok(g, l, top, cells)
    ensures Sound(g, l, top, cells)
  {
    assert Unsealed(cells, true);
  }

  /** The lists describe the strip, and the strip lies within bounds. */
  ghost predicate Sound(g: Bounds, l: Lists, top: nat, cells: seq<Cell>) {
    && top <= g.limit && Laid(cells, g.base, top, g.alignment)
    && l.free == FreeOf(cells) && multiset(l.used) == multiset(UsedOf(cells))
    && Conserved(l.free, l.used, l.blank, g.slots)
  }

  function Unlinked(list: seq<Block>, k: nat): seq<Block>
    requires k < |list|
  {
    list[..k] + list[k + 1..]
  }

  lemma {:induction false} SplitOk(g: Bounds, l: Lists, top: nat, cells: seq<Cell>, k: nat, n: nat) returns (i: nat)
    requires Ok(g, l, top, cells) && k < |l.free| && 0 < n < l.free[k].size && Aligned(n, g.alignment) && l.blank != []
    ensures i < |cells| && cells[i].b == l.free[k]
    ensures var wider := Insert(Unlinked(l.free, k), Back(l.free[k], n, l.blank[0]));
            Ok(g, Lists(Compact(wider), [Front(l.free[k], n)] + l.used, Released(wider, l.blank[1..])), top,
               SplitCells(cells, i, n, l.blank[0]))
  {
    Unfold(g, l, top, cells);
    i := LocateFree(cells, k);
    SplitFacts(g, l, top, cells, k, n, i);
    var wider := Insert(Unlinked(l.free, k), Back(l.free[k], n, l.blank[0]));
    SplitIds(g, l, k, n, wider);
    Fold(g, Lists(Compact(wider), [Front(l.free[k], n)] + l.used, Released(wider, l.blank[1..])), top,
         SplitCells(cells, i, n, l.blank[0]));
  }

  lemma {:induction false} SplitIds(g: Bounds, l: Lists, k: nat, n: nat, wider: seq<Block>)
    requires k < |l.free| && n <= l.free[k].size && l.blank != [] && Conserved(l.free, l.used, l.blank, g.slots)
    requires wider == Insert(Unlinked(l.free, k), Back(l.free[k], n, l.blank[0]))
    ensures Conserved(Compact(wider), [Front(l.free[k], n)] + l.used, Released(wider, l.blank[1..]), g.slots)
  {
    SplitConserves(l.free, l.used, l.blank, k, n, g.slots);
    CompactConserves(wider, [Front(l.free[k], n)] + l.used, l.blank[1..], g.slots);
  }

  lemma {:induction false} SplitFacts(g: Bounds, l: Lists, top: nat, cells: seq<Cell>, k: nat, n: nat, i: nat)
    requires Sound(g, l, top, cells) && k < |l.free| && 0 < n < l.free[k].size && Aligned(n, g.alignment)
    requires l.blank != [] && i < |cells| && cells[i] == Cell(l.free[k], false)
    requires FreeOf(cells[..i]) == l.free[..k] && FreeOf(cells[i + 1..]) == l.free[k + 1..]
    ensures var b, cells' := Front(l.free[k], n), SplitCells(cells, i, n, l.blank[0]);
            && Laid(cells', g.base, top, g.alignment)
            && FreeOf(cells') == Compact(Insert(Unlinked(l.free, k), Back(l.free[k], n, l.blank[0])))
            && multiset([b] + l.used) == multiset(UsedOf(cells'))
  {
    SplitCell(cells, g.base, top, g.alignment, i, n, l.blank[0]);
    UsedGrows(l.used, UsedOf(cells), UsedOf(SplitCells(cells, i, n, l.blank[0])), Front(l.free[k], n));
  }

  lemma {:induction false} CompactConserves(free: seq<Block>, used: seq<Block>, blank: seq<nat>, slots: nat)
    requires Conserved(free, used, blank, slots)
    ensures Conserved(Compact(free), used, Released(free, blank), slots)
  {
    CompactIds(free, blank);
    Regroup(Ids(Compact(free)), Ids(used), multiset(Released(free, blank)), Ids(free), multiset(blank));
  }

  lemma {:induction false} Regroup(a: multiset<nat>, u: multiset<nat>, c: multiset<nat>, x: multiset<nat>,
                                   y: multiset<nat>)
    requires a + c == x + y
    ensures a + u + c == x + u + y
  {
    assert a + u + c == (a + c) + u;
    assert x + u + y == (x + y) + u;
  }

  const HEAP_SIZE := 32
  const BLOCK_SIZE := 24

  lemma {:induction false} TakeIds(free: seq<Block>, k: nat)
    requires k < |free|
    ensures Ids(free) == Ids(Unlinked(free, k)) + multiset{free[k].id}
  {
    var a, x, c := free[..k], [free[k]], free[k + 1..];
    assert free == a + (x + c);
    IdsSplit(a, x + c);
    IdsCons(free[k], c);
    IdsSplit(a, c);
  }

  /** A free block moves to the used list; its size may change on the way. */
  lemma {:induction false} TakeConserves(free: seq<Block>, used: seq<Block>, blank: seq<nat>, k: nat, b: Block, n: nat)
    requires k < |free| && b.id == free[k].id && Conserved(free, used, blank, n)
    ensures Conserved(Unlinked(free, k), [b] + used, blank, n)
  {
    TakeIds(free, k);
    IdsCons(b, used);
  }

  lemma {:induction false} SplitConserves(free: seq<Block>, used: seq<Block>, blank: seq<nat>, k: nat, n: nat,
                                          slots: nat)
    requires k < |free| && n <= free[k].size && blank != [] && Conserved(free, used, blank, slots)
    ensures Conserved(Insert(Unlinked(free, k), Back(free[k], n, blank[0])), [Front(free[k], n)] + used, blank[1..],
            slots)
  {
    TakeConserves(free, used, blank, k, Front(free[k], n), slots);
    InsertIds(Unlinked(free, k), Back(free[k], n, blank[0]));
    assert blank == [blank[0]] + blank[1..];
  }

  /** Descriptors put onto `blank` one after the other. */
  function Pushed(list: seq<Block>, blank: seq<nat>): seq<nat> {
    if list == [] then blank else Pushed(list[1..], [list[0].id] + blank)
  }

  /** Every block touches the next one. */
  ghost predicate Run(list: seq<Block>) {
    forall k | 0 < k < |list| :: Touch(list[k - 1], list[k])
  }

  function TotalSize(list: seq<Block>): nat {
    if list == [] then 0 else list[0].size + TotalSize(list[1..])
  }

  function JoinRun(list: seq<Block>): Block
    requires list != []
  {
    Block(list[0].id, list[0].addr, TotalSize(list))
  }

  lemma {:induction false} RunSpan(list: seq<Block>)
    requires list != [] && Run(list)
    ensures End(JoinRun(list)) == End(list[|list| - 1])
  {
    if |list| > 1 {
      var tail := list[1..];
      assert forall k | 0 < k < |tail| :: tail[k - 1] == list[k] && tail[k] == list[k + 1];
      RunSpan(tail);
      assert Touch(list[0], list[1]);
    } else {
      assert TotalSize(list[1..]) == 0;
    }
  }

  /** The first two blocks of a run merge, the rest is still a run. */
  lemma {:induction false} RunStep(run: seq<Block>)
    requires |run| > 1 && Run(run)
    ensures var run' := [Join(run[0], run[1])] + run[2..];
            Run(run') && JoinRun(run') == JoinRun(run) && Touch(run[0], run[1])
  {
    var run' := [Join(run[0], run[1])] + run[2..];
    assert Touch(run[0], run[1]);
    forall k | 0 < k < |run'| ensures Touch(run'[k - 1], run'[k]) {
      assert Touch(run[k], run[k + 1]);
    }
    assert run'[1..] == run[2..] && run[1..][1..] == run[2..];
    assert TotalSize(run) == run[0].size + (run[1].size + TotalSize(run[2..]));
  }

  /** A run of touching blocks is merged into one, its descriptors released in
      list order. */
  lemma {:induction false} RunMerges(run: seq<Block>, rest: seq<Block>, blank: seq<nat>)
    requires run != [] && Run(run)
    ensures Compact(run + rest) == Compact([JoinRun(run)] + rest)
    ensures Released(run + rest, blank) == Released([JoinRun(run)] + rest, Pushed(run[1..], blank))
    decreases |run|
  {
    if |run| > 1 {
      RunStep(run);
      var run' := [Join(run[0], run[1])] + run[2..];
      assert (run + rest)[2..] == run[2..] + rest;
      assert [Join(run[0], run[1])] + (run + rest)[2..] == run' + rest;
      assert run'[1..] == run[1..][1..];
      RunMerges(run', rest, [run[1].id] + blank);
    } else {
      assert TotalSize(run[1..]) == 0;
      assert run == [JoinRun(run)];
    }
  }

  lemma {:induction false} RunCut(list: seq<Block>, i: nat, j: nat)
    requires i <= j < |list|
    ensures list[i..] == list[i..j + 1] + list[j + 1..] && list[i + 1..j + 1] == list[i..j + 1][1..]
  {
  }

  lemma {:induction false} MaximalRun(run: seq<Block>, next: seq<Block>, blank: seq<nat>)
    requires run != [] && Run(run) && (next != [] ==> !Touch(run[|run| - 1], next[0]))
    ensures Compact(run + next) == [JoinRun(run)] + Compact(next)
    ensures Released(run + next, blank) == Released(next, Pushed(run[1..], blank))
    ensures JoinRun(run).size == run[|run| - 1].addr - run[0].addr + run[|run| - 1].size
    ensures |run| == 1 ==> JoinRun(run) == run[0]
  {
    RunMerges(run, next, blank);
    RunSpan(run);
    assert ([JoinRun(run)] + next)[1..] == next;
  }

  // --------------------------------------------------------------- what every heap keeps

  /** The free and used blocks tile the heap exactly: an address lies in some
      block if and only if it is in [base, top). */
  lemma {:induction false} HeapTiles(g: Bounds, l: Lists, top: nat, cells: seq<Cell>, x: nat)
    requires Ok(g, l, top, cells)
    ensures top <= g.limit
    ensures g.base <= x < top <==> exists b :: (b in l.free || b in l.used) && Contains(b, x)
  {
    Unfold(g, l, top, cells);
    Tiling(cells, g.base, top, x);
    forall b ensures b in l.used <==> b in UsedOf(cells) {
      assert b in multiset(l.used) <==> b in multiset(UsedOf(cells));
    }
  }

  /** Live allocations are aligned, in bounds, and apart from each other and
      from every free block. */
  lemma {:induction false} LiveBlocks(g: Bounds, l: Lists, top: nat, cells: seq<Cell>, i: nat)
    requires Ok(g, l, top, cells) && i < |l.used|
    ensures var b := l.used[i];
            && Aligned(b.addr, g.alignment) && b.size > 0 && g.base <= b.addr && End(b) <= top <= g.limit
            && (forall j | 0 <= j < |l.used| && j != i :: Disjoint(b, l.used[j]))
            && forall f | f in l.free :: Disjoint(b, f)
  {
    Unfold(g, l, top, cells);
    var b := l.used[i];
    assert b in multiset(l.used);
    AddressAligned(cells, g.base, top, g.alignment, b);
    ListedWithin(cells, g.base, top, b);
    ListedOnce(cells, g.base, top, b);
    forall j | 0 <= j < |l.used| && j != i ensures Disjoint(b, l.used[j]) {
      assert l.used[j] in multiset(l.used);
      if l.used[j] == b {
        CountTwice(l.used, i, j);
      } else {
        Apart(cells, g.base, top, b, l.used[j]);
      }
    }
    forall f | f in l.free ensures Disjoint(b, f) {
      assert f in multiset(l.free);
      if f != b {
        Apart(cells, g.base, top, b, f);
      }
    }
  }

  lemma {:induction false} CountTwice(list: seq<Block>, i: nat, j: nat)
    requires i < |list| && j < |list| && i != j && list[i] == list[j]
    ensures multiset(list)[list[i]] >= 2
  {
    var a, b := if i < j then i else j, if i < j then j else i;
    assert list == list[..a] + [list[a]] + list[a + 1..b] + [list[b]] + list[b + 1..];
  }

  /** The free list is sorted by address and no two free blocks touch. */
  lemma {:induction false} FreeListSorted(g: Bounds, l: Lists, top: nat, cells: seq<Cell>)
    requires Ok(g, l, top, cells)
    ensures forall i, j | 0 <= i < j < |l.free| :: End(l.free[i]) < l.free[j].addr
  {
    Unfold(g, l, top, cells);
    forall i, j | 0 <= i < j < |l.free| ensures End(l.free[i]) < l.free[j].addr {
      FreeGaps(cells, g.base, top, i, j);
    }
  }

  lemma {:induction false} BlocksConserved(g: Bounds, l: Lists, top: nat, cells: seq<Cell>)
    requires Ok(g, l, top, cells)
    ensures |l.free| + |l.used| + |l.blank| == g.slots
  {
    Unfold(g, l, top, cells);
    IdsSize(l.free);
    IdsSize(l.used);
    SlotsSize(g.slots);
    assert |Ids(l.free) + Ids(l.used) + multiset(l.blank)| == |l.free| + |l.used| + |l.blank|;
  }

  /** Once everything is freed the heap is one free block, or empty. */
  lemma {:induction false} AllFreed(g: Bounds, l: Lists, top: nat, cells: seq<Cell>)
    requires Ok(g, l, top, cells) && l.used == []
    ensures top == g.base ==> l.free == []
    ensures top > g.base ==> |l.free| == 1 && l.free[0].addr == g.base && End(l.free[0]) == top
  {
    Unfold(g, l, top, cells);
    assert |multiset(UsedOf(cells))| == |multiset(l.used)|;
    ChainOrder(cells, g.base, top);
    NoneUsed(cells, g.base, top);
  }
}
