/** The heap as a strip of cells: what the free and used lists of tinyalloc
    stand for, and what its list operations do to the strip. */
module HeapLayout {

  /** A block descriptor: its slot in the block table, and what it describes. */
  datatype Block = Block(id: nat, addr: nat, size: nat)

  datatype Cell = Cell(b: Block, used: bool)

  function End(b: Block): nat {
    b.addr + b.size
  }

  /** The cells lie end to end from `from` to `to`, none is empty. */
  ghost predicate Chain(cells: seq<Cell>, from: nat, to: nat) {
    if cells == [] then from == to
    else cells[0].b.addr == from && cells[0].b.size > 0 && Chain(cells[1..], End(cells[0].b), to)
  }

  function FreeOf(cells: seq<Cell>): seq<Block> {
    if cells == [] then [] else if cells[0].used then FreeOf(cells[1..]) else [cells[0].b] + FreeOf(cells[1..])
  }

  function UsedOf(cells: seq<Cell>): seq<Block> {
    if cells == [] then [] else if cells[0].used then [cells[0].b] + UsedOf(cells[1..]) else UsedOf(cells[1..])
  }

  /** No two neighbours are both free. */
  ghost predicate Compacted(cells: seq<Cell>) {
    forall i | 0 < i < |cells| :: cells[i - 1].used || cells[i].used
  }

  // ------------------------------------------------------------- taking a strip apart

  lemma {:induction false} FreeOfSplit(a: seq<Cell>, b: seq<Cell>)
    ensures FreeOf(a + b) == FreeOf(a) + FreeOf(b) && UsedOf(a + b) == UsedOf(a) + UsedOf(b)
  {
    FreeSplits(a, b);
    UsedSplits(a, b);
  }

  lemma {:induction false} FreeSplits(a: seq<Cell>, b: seq<Cell>)
    ensures FreeOf(a + b) == FreeOf(a) + FreeOf(b)
  {
    if a == [] {
      assert a + b == b;
    } else {
      assert (a + b)[1..] == a[1..] + b && (a + b)[0] == a[0];
      FreeSplits(a[1..], b);
      if !a[0].used {
        assert [a[0].b] + (FreeOf(a[1..]) + FreeOf(b)) == ([a[0].b] + FreeOf(a[1..])) + FreeOf(b);
      }
    }
  }

  lemma {:induction false} UsedSplits(a: seq<Cell>, b: seq<Cell>)
    ensures UsedOf(a + b) == UsedOf(a) + UsedOf(b)
  {
    if a == [] {
      assert a + b == b;
    } else {
      assert (a + b)[1..] == a[1..] + b && (a + b)[0] == a[0];
      UsedSplits(a[1..], b);
      if a[0].used {
        assert [a[0].b] + (UsedOf(a[1..]) + UsedOf(b)) == ([a[0].b] + UsedOf(a[1..])) + UsedOf(b);
      }
    }
  }

  lemma {:induction false} ChainSplit(a: seq<Cell>, b: seq<Cell>, from: nat, to: nat)
    requires Chain(a + b, from, to)
    ensures exists mid: nat :: from <= mid <= to && Chain(a, from, mid) && Chain(b, mid, to)
  {
    if a == [] {
      assert a + b == b;
      ChainOrder(b, from, to);
      assert Chain(a, from, from);
    } else {
      assert (a + b)[1..] == a[1..] + b;
      ChainSplit(a[1..], b, End(a[0].b), to);
      var mid: nat :| End(a[0].b) <= mid <= to && Chain(a[1..], End(a[0].b), mid) && Chain(b, mid, to);
      assert Chain(a, from, mid);
    }
  }

  lemma {:induction false} ChainJoin(a: seq<Cell>, b: seq<Cell>, from: nat, mid: nat, to: nat)
    requires Chain(a, from, mid) && Chain(b, mid, to)
    ensures Chain(a + b, from, to)
  {
    if a == [] {
      assert a + b == b;
    } else {
      assert (a + b)[1..] == a[1..] + b;
      ChainJoin(a[1..], b, End(a[0].b), mid, to);
    }
  }

  lemma {:induction false} ChainOrder(cells: seq<Cell>, from: nat, to: nat)
    requires Chain(cells, from, to)
    ensures from <= to && (cells != [] ==> from < to)
  {
    if cells != [] {
      ChainOrder(cells[1..], End(cells[0].b), to);
    }
  }

  /** Every listed block lies within the strip. */
  lemma {:induction false} ListedWithin(cells: seq<Cell>, from: nat, to: nat, b: Block)
    requires Chain(cells, from, to) && (b in FreeOf(cells) || b in UsedOf(cells))
    ensures from <= b.addr && b.size > 0 && End(b) <= to
  {
    if b != cells[0].b {
      ListedWithin(cells[1..], End(cells[0].b), to, b);
    } else {
      ChainOrder(cells[1..], End(cells[0].b), to);
    }
  }

  // -------------------------------------------------------------------------- sorting

  /** insert_block: before the first block that does not lie below `b`. */
  function Insert(list: seq<Block>, b: Block): seq<Block> {
    if list == [] || b.addr <= list[0].addr then [b] + list else [list[0]] + Insert(list[1..], b)
  }

  lemma {:induction false} InsertBetween(lo: seq<Block>, b: Block, hi: seq<Block>)
    requires forall x | x in lo :: x.addr < b.addr
    requires forall x | x in hi :: b.addr <= x.addr
    ensures Insert(lo + hi, b) == lo + [b] + hi
  {
    if lo == [] {
      assert lo + hi == hi;
      assert hi != [] ==> hi[0] in hi;
    } else {
      assert (lo + hi)[1..] == lo[1..] + hi;
      InsertBetween(lo[1..], b, hi);
    }
  }

  /** Freeing a cell puts its block at its place in the free list. */
  lemma {:induction false} InsertCell(a: seq<Cell>, b: Block, c: seq<Cell>, from: nat, to: nat)
    requires Chain(a, from, b.addr) && Chain(c, End(b), to) && b.size > 0
    ensures Insert(FreeOf(a) + FreeOf(c), b) == FreeOf(a + [Cell(b, false)] + c)
  {
    forall x | x in FreeOf(a) ensures x.addr < b.addr {
      ListedWithin(a, from, b.addr, x);
    }
    forall x | x in FreeOf(c) ensures b.addr <= x.addr {
      ListedWithin(c, End(b), to, x);
    }
    InsertBetween(FreeOf(a), b, FreeOf(c));
    FreeOfSplit(a + [Cell(b, false)], c);
    FreeOfSplit(a, [Cell(b, false)]);
    assert FreeOf([Cell(b, false)]) == [b];
  }

  // -------------------------------------------------------------------------- merging

  predicate Touch(x: Block, y: Block) {
    End(x) == y.addr
  }

  function Join(x: Block, y: Block): Block {
    Block(x.id, x.addr, x.size + y.size)
  }

  /** compact: neighbours that touch become one block. */
  function Compact(list: seq<Block>): seq<Block>
    decreases |list|
  {
    if |list| <= 1 then list
    else if Touch(list[0], list[1]) then Compact([Join(list[0], list[1])] + list[2..])
    else [list[0]] + Compact(list[1..])
  }

  /** The descriptors compact releases, pushed one by one onto the blank ones. */
  function Released(list: seq<Block>, blank: seq<nat>): seq<nat>
    decreases |list|
  {
    if |list| <= 1 then blank
    else if Touch(list[0], list[1]) then Released([Join(list[0], list[1])] + list[2..], [list[1].id] + blank)
    else Released(list[1..], blank)
  }

  /** The same on the strip. */
  function MergeFree(cells: seq<Cell>): seq<Cell>
    decreases |cells|
  {
    if |cells| <= 1 then cells
    else if !cells[0].used && !cells[1].used
    then MergeFree([Cell(Join(cells[0].b, cells[1].b), false)] + cells[2..])
    else [cells[0]] + MergeFree(cells[1..])
  }

  lemma {:induction false} MergeChain(cells: seq<Cell>, from: nat, to: nat)
    requires Chain(cells, from, to)
    ensures Chain(MergeFree(cells), from, to)
    decreases |cells|
  {
    if |cells| > 1 {
      if !cells[0].used && !cells[1].used {
        var joined := [Cell(Join(cells[0].b, cells[1].b), false)] + cells[2..];
        assert joined[1..] == cells[1..][1..];
        MergeChain(joined, from, to);
      } else {
        MergeChain(cells[1..], End(cells[0].b), to);
      }
    }
  }

  /** Blocks touch in the free list exactly when their cells are neighbours,
      so compacting the list compacts the strip. */
  lemma {:induction false} MergeLists(cells: seq<Cell>, from: nat, to: nat)
    requires Chain(cells, from, to)
    ensures FreeOf(MergeFree(cells)) == Compact(FreeOf(cells)) && UsedOf(MergeFree(cells)) == UsedOf(cells)
    decreases |cells|
  {
    if |cells| > 1 {
      if !cells[0].used && !cells[1].used {
        var joined := [Cell(Join(cells[0].b, cells[1].b), false)] + cells[2..];
        assert joined[1..] == cells[1..][1..];
        assert FreeOf(joined) == [Join(cells[0].b, cells[1].b)] + FreeOf(cells)[2..];
        MergeLists(joined, from, to);
      } else {
        MergeLists(cells[1..], End(cells[0].b), to);
        assert MergeFree(cells)[1..] == MergeFree(cells[1..]);
        if !cells[0].used {
          NoTouch(cells, from, to);
          assert FreeOf(cells)[1..] == FreeOf(cells[1..]);
        }
      }
    }
  }

  lemma {:induction false} NoTouch(cells: seq<Cell>, from: nat, to: nat)
    requires Chain(cells, from, to) && |cells| > 1 && !cells[0].used && cells[1].used
    ensures FreeOf(cells) == [cells[0].b] + FreeOf(cells[1..])
    ensures FreeOf(cells[1..]) != [] ==> !Touch(cells[0].b, FreeOf(cells[1..])[0])
  {
    var rest := cells[1..];
    if FreeOf(rest) != [] {
      ListedWithin(rest[1..], End(rest[0].b), to, FreeOf(rest)[0]);
    }
  }

  lemma {:induction false} MergeCompacts(cells: seq<Cell>)
    ensures Compacted(MergeFree(cells))
    ensures cells != [] && cells[0].used ==> MergeFree(cells) != [] && MergeFree(cells)[0].used
    decreases |cells|
  {
    if |cells| > 1 {
      if !cells[0].used && !cells[1].used {
        MergeCompacts([Cell(Join(cells[0].b, cells[1].b), false)] + cells[2..]);
      } else {
        MergeCompacts(cells[1..]);
      }
    }
  }

  // ----------------------------------------------------------- conservation of descriptors

  function Ids(list: seq<Block>): multiset<nat> {
    if list == [] then multiset{} else multiset{list[0].id} + Ids(list[1..])
  }

  lemma {:induction false} IdsSplit(a: seq<Block>, b: seq<Block>)
    ensures Ids(a + b) == Ids(a) + Ids(b)
  {
    if a == [] {
      assert a + b == b;
    } else {
      assert (a + b)[1..] == a[1..] + b;
      IdsSplit(a[1..], b);
    }
  }

  lemma {:induction false} IdsSize(a: seq<Block>)
    ensures |Ids(a)| == |a|
  {
    if a != [] {
      IdsSize(a[1..]);
    }
  }

  lemma {:induction false} InsertIds(list: seq<Block>, b: Block)
    ensures Ids(Insert(list, b)) == Ids(list) + multiset{b.id}
  {
    if list == [] || b.addr <= list[0].addr {
      assert ([b] + list)[1..] == list;
    } else {
      InsertIds(list[1..], b);
      assert ([list[0]] + Insert(list[1..], b))[1..] == Insert(list[1..], b);
    }
  }

  lemma {:induction false} IdsCons(b: Block, list: seq<Block>)
    ensures Ids([b] + list) == multiset{b.id} + Ids(list)
  {
    assert ([b] + list)[1..] == list;
  }

  lemma {:induction false} AddOne(x: nat, a: multiset<nat>, b: multiset<nat>, c: multiset<nat>, d: multiset<nat>)
    requires a + b == c + d
    ensures (multiset{x} + a) + b == (multiset{x} + c) + d
  {
    assert (multiset{x} + a) + b == multiset{x} + (a + b);
  }

  /** Every merged descriptor becomes blank again. */
  lemma {:induction false} CompactIds(list: seq<Block>, blank: seq<nat>)
    ensures Ids(Compact(list)) + multiset(Released(list, blank)) == Ids(list) + multiset(blank)
    decreases |list|
  {
    if |list| > 1 {
      var tail, rest := list[1..], list[2..];
      assert list == [list[0]] + tail && tail == [list[1]] + rest;
      IdsCons(list[0], tail);
      if Touch(list[0], list[1]) {
        var joined := Join(list[0], list[1]);
        CompactIds([joined] + rest, [list[1].id] + blank);
        IdsCons(joined, rest);
        IdsCons(list[1], rest);
        assert multiset([list[1].id] + blank) == multiset{list[1].id} + multiset(blank);
      } else {
        CompactIds(tail, blank);
        IdsCons(list[0], Compact(tail));
        AddOne(list[0].id, Ids(Compact(tail)), multiset(Released(tail, blank)), Ids(tail), multiset(blank));
      }
    }
  }

  // ------------------------------------------------------------------------- alignment

  ghost predicate Times(x: nat, q: nat, al: nat) {
    x == q * al
  }

  ghost predicate Aligned(x: nat, al: nat) {
    exists q: nat :: Times(x, q, al)
  }

  lemma {:induction false} AlignedSum(x: nat, y: nat, al: nat)
    requires Aligned(x, al) && Aligned(y, al)
    ensures Aligned(x + y, al) && (y <= x ==> Aligned(x - y, al))
  {
    var p: nat :| Times(x, p, al);
    var q: nat :| Times(y, q, al);
    assert (p + q) * al == p * al + q * al;
    assert Times(x + y, p + q, al);
    if y <= x {
      if q <= p {
        assert (p - q) * al == p * al - q * al;
        assert Times(x - y, p - q, al);
      } else {
        assert q * al == p * al + (q - p) * al;
        assert Times(x - y, 0, al);
      }
    }
  }

  ghost predicate AllSized(cells: seq<Cell>, al: nat)
  {
    forall i | 0 <= i < |cells| :: Aligned(cells[i].b.size, al)
  }

  lemma {:induction false} MergeSized(cells: seq<Cell>, al: nat)
    requires AllSized(cells, al)
    ensures AllSized(MergeFree(cells), al)
    decreases |cells|
  {
    if |cells| > 1 {
      if !cells[0].used && !cells[1].used {
        AlignedSum(cells[0].b.size, cells[1].b.size, al);
        MergeSized([Cell(Join(cells[0].b, cells[1].b), false)] + cells[2..], al);
      } else {
        MergeSized(cells[1..], al);
      }
    }
  }

  /** Aligned sizes from an aligned start give aligned addresses. */
  lemma {:induction false} AddressAligned(cells: seq<Cell>, from: nat, to: nat, al: nat, b: Block)
    requires AllSized(cells, al) && Aligned(from, al) && Chain(cells, from, to)
    requires b in FreeOf(cells) || b in UsedOf(cells)
    ensures Aligned(b.addr, al)
  {
    if b != cells[0].b {
      AlignedSum(from, cells[0].b.size, al);
      AddressAligned(cells[1..], End(cells[0].b), to, al, b);
    }
  }

  lemma {:induction false} EndAligned(cells: seq<Cell>, from: nat, to: nat, al: nat)
    requires AllSized(cells, al) && Aligned(from, al) && Chain(cells, from, to)
    ensures Aligned(to, al)
  {
    if cells != [] {
      AlignedSum(from, cells[0].b.size, al);
      EndAligned(cells[1..], End(cells[0].b), to, al);
    }
  }
}
