/** The five things alloc_block and ta_free do to the strip of cells. */
module HeapSteps {
  import opened HeapLayout

  /** The strip of a heap: end to end, merged, every size a multiple of `al`. */
  ghost predicate Laid(cells: seq<Cell>, base: nat, top: nat, al: nat) {
    Chain(cells, base, top) && Compacted(cells) && AllSized(cells, al) && Aligned(base, al)
  }

  /** The cell of the `k`-th free block. */
  lemma {:induction false} LocateFree(cells: seq<Cell>, k: nat) returns (i: nat)
    requires k < |FreeOf(cells)|
    ensures i < |cells| && cells[i] == Cell(FreeOf(cells)[k], false)
    ensures FreeOf(cells[..i]) == FreeOf(cells)[..k] && FreeOf(cells[i + 1..]) == FreeOf(cells)[k + 1..]
    decreases |cells|
  {
    if !cells[0].used && k == 0 {
      i := 0;
    } else {
      var j := LocateFree(cells[1..], if cells[0].used then k else k - 1);
      i := j + 1;
      assert cells[..i] == [cells[0]] + cells[1..][..j] && cells[..i][1..] == cells[1..][..j];
      assert cells[i + 1..] == cells[1..][j + 1..];
    }
  }

  lemma {:induction false} LocateUsed(cells: seq<Cell>, b: Block) returns (i: nat)
    requires b in UsedOf(cells)
    ensures i < |cells| && cells[i] == Cell(b, true)
    decreases |cells|
  {
    if cells[0] == Cell(b, true) {
      i := 0;
    } else {
      var j := LocateUsed(cells[1..], b);
      i := j + 1;
    }
  }

  /** What a strip looks like around cell `i`. */
  lemma {:induction false} Around(cells: seq<Cell>, base: nat, top: nat, i: nat)
    requires i < |cells| && Chain(cells, base, top)
    ensures Chain(cells[..i], base, cells[i].b.addr) && Chain(cells[i + 1..], End(cells[i].b), top)
    ensures cells[i].b.size > 0
    ensures cells == cells[..i] + [cells[i]] + cells[i + 1..]
  {
    var a, c := cells[..i], cells[i..];
    assert cells == a + c && c[1..] == cells[i + 1..];
    ChainSplit(a, c, base, top);
    var mid: nat :| base <= mid <= top && Chain(a, base, mid) && Chain(c, mid, top);
  }

  lemma {:induction false} Listed(a: seq<Cell>, x: seq<Cell>, c: seq<Cell>)
    ensures FreeOf(a + x + c) == FreeOf(a) + FreeOf(x) + FreeOf(c)
    ensures UsedOf(a + x + c) == UsedOf(a) + UsedOf(x) + UsedOf(c)
  {
    FreeOfSplit(a + x, c);
    FreeOfSplit(a, x);
  }

  lemma {:induction false} Single(b: Block, used: bool)
    ensures FreeOf([Cell(b, used)]) == (if used then [] else [b]) &&
            UsedOf([Cell(b, used)]) == (if used then [b] else [])
  {
    assert [Cell(b, used)][1..] == [];
  }

  // -------------------------------------------------------------------- the whole block

  lemma {:induction false} UseCell(cells: seq<Cell>, base: nat, top: nat, al: nat, i: nat)
    requires Laid(cells, base, top, al) && i < |cells| && !cells[i].used
    ensures var b := cells[i].b;
            var cells' := cells[..i] + [Cell(b, true)] + cells[i + 1..];
            && Laid(cells', base, top, al)
            && FreeOf(cells') == FreeOf(cells[..i]) + FreeOf(cells[i + 1..])
            && multiset(UsedOf(cells')) == multiset(UsedOf(cells)) + multiset{b}
  {
    var b, a, c := cells[i].b, cells[..i], cells[i + 1..];
    Around(cells, base, top, i);
    CellLists(cells, i);
    Listed(a, [Cell(b, true)], c);
    Single(b, true);
    var cells' := a + [Cell(b, true)] + c;
    ReChain(a, [Cell(b, true)], c, base, b.addr, End(b), top);
    assert forall k | 0 <= k < |cells| && k != i :: cells'[k] == cells[k];
  }

  lemma {:induction false} ReChain(a: seq<Cell>, x: seq<Cell>, c: seq<Cell>, p: nat, q: nat, r: nat, s: nat)
    requires Chain(a, p, q) && Chain(x, q, r) && Chain(c, r, s)
    ensures Chain(a + x + c, p, s)
  {
    ChainJoin(a, x, p, q, r);
    ChainJoin(a + x, c, p, r, s);
  }

  // -------------------------------------------------------------------------- splitting

  /** A merged strip has nothing to merge. */
  lemma {:induction false} MergeIdle(cells: seq<Cell>)
    requires Compacted(cells)
    ensures MergeFree(cells) == cells
    decreases |cells|
  {
    if |cells| > 1 {
      assert cells[0].used || cells[1].used;
      var tail := cells[1..];
      assert forall k | 0 < k < |tail| :: tail[k - 1] == cells[k] && tail[k] == cells[k + 1];
      MergeIdle(tail);
    }
  }

  function Front(b: Block, num: nat): Block {
    Block(b.id, b.addr, num)
  }

  function Back(b: Block, num: nat, id: nat): Block
    requires num <= b.size
  {
    Block(id, b.addr + num, b.size - num)
  }

  function SplitCells(cells: seq<Cell>, i: nat, num: nat, id: nat): seq<Cell>
    requires i < |cells| && num <= cells[i].b.size
  {
    cells[..i] + [Cell(Front(cells[i].b, num), true), Cell(Back(cells[i].b, num, id), false)] + cells[i + 1..]
  }

  lemma {:induction false} SplitLaid(cells: seq<Cell>, base: nat, top: nat, al: nat, i: nat, num: nat, id: nat)
    requires Laid(cells, base, top, al) && i < |cells| && !cells[i].used && 0 < num < cells[i].b.size &&
             Aligned(num, al)
    ensures Laid(SplitCells(cells, i, num, id), base, top, al)
  {
    var b, a, c := cells[i].b, cells[..i], cells[i + 1..];
    var x := [Cell(Front(b, num), true), Cell(Back(b, num, id), false)];
    var cells' := SplitCells(cells, i, num, id);
    Around(cells, base, top, i);
    assert x[1..] == [Cell(Back(b, num, id), false)] && x[1..][1..] == [];
    ReChain(a, x, c, base, b.addr, End(b), top);
    AlignedSum(b.size, num, al);
    assert forall k | 0 <= k < i :: cells'[k] == cells[k];
    assert forall k | i + 1 < k < |cells'| :: cells'[k] == cells[k - 1];
    assert c != [] ==> cells[i + 1].used;
  }

  lemma {:induction false} SplitLists(cells: seq<Cell>, base: nat, top: nat, i: nat, num: nat, id: nat)
    requires Chain(cells, base, top) && i < |cells| && !cells[i].used && 0 < num < cells[i].b.size
    ensures var cells' := SplitCells(cells, i, num, id);
            && FreeOf(cells') == Insert(FreeOf(cells[..i]) + FreeOf(cells[i + 1..]), Back(cells[i].b, num, id))
            && multiset(UsedOf(cells')) == multiset(UsedOf(cells)) + multiset{Front(cells[i].b, num)}
  {
    var b, a, c := cells[i].b, cells[..i], cells[i + 1..];
    var x, y := Cell(Front(b, num), true), Cell(Back(b, num, id), false);
    Around(cells, base, top, i);
    ChainJoin(a, [x], base, b.addr, b.addr + num);
    InsertCell(a + [x], y.b, c, base, top);
    assert SplitCells(cells, i, num, id) == a + [x] + [y] + c;
    UsedAppend(a, x.b);
    Listed(a + [x], [y], c);
    Single(y.b, false);
    CellLists(cells, i);
  }

  lemma {:induction false} UsedAppend(a: seq<Cell>, b: Block)
    ensures FreeOf(a + [Cell(b, true)]) == FreeOf(a) && UsedOf(a + [Cell(b, true)]) == UsedOf(a) + [b]
  {
    FreeOfSplit(a, [Cell(b, true)]);
    Single(b, true);
  }

  lemma {:induction false} CellLists(cells: seq<Cell>, i: nat)
    requires i < |cells|
    ensures var a, b, c := cells[..i], cells[i].b, cells[i + 1..];
            if cells[i].used
            then FreeOf(cells) == FreeOf(a) + FreeOf(c) && UsedOf(cells) == UsedOf(a) + [b] + UsedOf(c)
            else FreeOf(cells) == FreeOf(a) + [b] + FreeOf(c) && UsedOf(cells) == UsedOf(a) + UsedOf(c)
  {
    var a, x, c := cells[..i], [cells[i]], cells[i + 1..];
    assert cells == a + x + c;
    Listed(a, x, c);
    Single(cells[i].b, cells[i].used);
    assert x == [Cell(cells[i].b, cells[i].used)];
    if cells[i].used {
      assert FreeOf(a) + [] + FreeOf(c) == FreeOf(a) + FreeOf(c);
    } else {
      assert UsedOf(a) + [] + UsedOf(c) == UsedOf(a) + UsedOf(c);
    }
  }

  /** The rest of a split block touches no free block: compact does nothing. */
  lemma {:induction false} SplitCell(cells: seq<Cell>, base: nat, top: nat, al: nat, i: nat, num: nat, id: nat)
    requires Laid(cells, base, top, al) && i < |cells| && !cells[i].used && 0 < num < cells[i].b.size &&
             Aligned(num, al)
    ensures var cells', b := SplitCells(cells, i, num, id), cells[i].b;
            && Laid(cells', base, top, al)
            && FreeOf(cells') == Compact(Insert(FreeOf(cells[..i]) + FreeOf(cells[i + 1..]), Back(b, num, id)))
            && multiset(UsedOf(cells')) == multiset(UsedOf(cells)) + multiset{Front(b, num)}
  {
    var cells' := SplitCells(cells, i, num, id);
    SplitLaid(cells, base, top, al, i, num, id);
    SplitLists(cells, base, top, i, num, id);
    MergeIdle(cells');
    MergeLists(cells', base, top);
  }

  // ------------------------------------------------------------------- moving the top

  lemma {:induction false} TopIsLast(cells: seq<Cell>, base: nat, top: nat, i: nat)
    requires Chain(cells, base, top) && i < |cells| && End(cells[i].b) >= top
    ensures cells[i + 1..] == [] && i == |cells| - 1
  {
    Around(cells, base, top, i);
    ChainOrder(cells[i + 1..], End(cells[i].b), top);
  }

  function TopCells(cells: seq<Cell>, i: nat, num: nat): seq<Cell>
    requires i < |cells|
  {
    cells[..i] + [Cell(Front(cells[i].b, num), true)]
  }

  /** The last free cell becomes a used one of any size: the top moves with it. */
  lemma {:induction false} ResizeTop(cells: seq<Cell>, base: nat, top: nat, al: nat, i: nat, num: nat)
    requires Laid(cells, base, top, al) && i < |cells| && !cells[i].used && num > 0 && Aligned(num, al)
    requires End(cells[i].b) >= top
    ensures var b := cells[i].b;
            var cells' := TopCells(cells, i, num);
            && Laid(cells', base, End(Front(b, num)), al)
            && FreeOf(cells') == FreeOf(cells[..i]) + FreeOf(cells[i + 1..])
            && multiset(UsedOf(cells')) == multiset(UsedOf(cells)) + multiset{Front(b, num)}
  {
    var b, a := cells[i].b, cells[..i];
    TopIsLast(cells, base, top, i);
    Around(cells, base, top, i);
    CellLists(cells, i);
    UsedAppend(a, Front(b, num));
    ChainJoin(a, [Cell(Front(b, num), true)], base, b.addr, b.addr + num);
    AppendLaid(cells, i, Cell(Front(b, num), true), al);
  }

  lemma {:induction false} AppendLaid(cells: seq<Cell>, i: nat, x: Cell, al: nat)
    requires i <= |cells| && Compacted(cells) && AllSized(cells, al) && x.used && Aligned(x.b.size, al)
    ensures Compacted(cells[..i] + [x]) && AllSized(cells[..i] + [x], al)
  {
  }

  lemma {:induction false} Extend(cells: seq<Cell>, base: nat, top: nat, al: nat, num: nat, id: nat)
    requires Laid(cells, base, top, al) && num > 0 && Aligned(num, al)
    ensures var b := Block(id, top, num);
            var cells' := cells + [Cell(b, true)];
            && Laid(cells', base, top + num, al) && FreeOf(cells') == FreeOf(cells)
            && multiset(UsedOf(cells')) == multiset(UsedOf(cells)) + multiset{b}
  {
    var b := Block(id, top, num);
    UsedAppend(cells, b);
    ChainJoin(cells, [Cell(b, true)], base, top, top + num);
    assert cells[..|cells|] == cells;
    AppendLaid(cells, |cells|, Cell(b, true), al);
  }

  // ---------------------------------------------------------------------------- freeing

  lemma {:induction false} FreeCell(cells: seq<Cell>, base: nat, top: nat, al: nat, i: nat)
    requires Laid(cells, base, top, al) && i < |cells| && cells[i].used
    ensures var b := cells[i].b;
            var cells' := MergeFree(cells[..i] + [Cell(b, false)] + cells[i + 1..]);
            && Laid(cells', base, top, al) && FreeOf(cells') == Compact(Insert(FreeOf(cells), b))
            && multiset(UsedOf(cells')) + multiset{b} == multiset(UsedOf(cells))
  {
    var b, a, c := cells[i].b, cells[..i], cells[i + 1..];
    Around(cells, base, top, i);
    InsertCell(a, b, c, base, top);
    CellLists(cells, i);
    OpenCell(a, b, c);
    ReChain(a, [Cell(b, false)], c, base, b.addr, End(b), top);
    OpenMerges(a + [Cell(b, false)] + c, base, top, al);
  }

  lemma {:induction false} OpenCell(a: seq<Cell>, b: Block, c: seq<Cell>)
    ensures UsedOf(a + [Cell(b, false)] + c) == UsedOf(a) + UsedOf(c)
  {
    Listed(a, [Cell(b, false)], c);
    Single(b, false);
  }

  lemma {:induction false} OpenMerges(open: seq<Cell>, base: nat, top: nat, al: nat)
    requires Chain(open, base, top) && AllSized(open, al) && Aligned(base, al)
    ensures Laid(MergeFree(open), base, top, al)
    ensures FreeOf(MergeFree(open)) == Compact(FreeOf(open)) && UsedOf(MergeFree(open)) == UsedOf(open)
  {
    MergeChain(open, base, top);
    MergeLists(open, base, top);
    MergeCompacts(open);
    MergeSized(open, al);
  }

  // ------------------------------------------------------------------------ exact tiling

  predicate Contains(b: Block, x: nat) {
    b.addr <= x < End(b)
  }

  /** Every address of the strip lies in exactly one listed block, and an
      address outside of it in none. */
  lemma {:induction false} Tiling(cells: seq<Cell>, from: nat, to: nat, x: nat)
    requires Chain(cells, from, to)
    ensures from <= x < to <==> exists b :: (b in FreeOf(cells) || b in UsedOf(cells)) && Contains(b, x)
  {
    ChainOrder(cells, from, to);
    if cells != [] {
      var b, rest := cells[0].b, cells[1..];
      Tiling(rest, End(b), to, x);
      ChainOrder(rest, End(b), to);
      assert b in FreeOf(cells) || b in UsedOf(cells);
      if y :| (y in FreeOf(cells) || y in UsedOf(cells)) && Contains(y, x) {
        ListedWithin(cells, from, to, y);
      }
      if End(b) <= x < to {
        var y :| (y in FreeOf(rest) || y in UsedOf(rest)) && Contains(y, x);
        assert y in FreeOf(cells) || y in UsedOf(cells);
      }
    }
  }

  /** Two listed blocks are the same or apart. */
  lemma {:induction false} Apart(cells: seq<Cell>, from: nat, to: nat, x: Block, y: Block)
    requires Chain(cells, from, to) && x != y
    requires (x in FreeOf(cells) || x in UsedOf(cells)) && (y in FreeOf(cells) || y in UsedOf(cells))
    ensures End(x) <= y.addr || End(y) <= x.addr
  {
    var b, rest := cells[0].b, cells[1..];
    if x == b {
      ListedWithin(rest, End(b), to, y);
    } else if y == b {
      ListedWithin(rest, End(b), to, x);
    } else {
      Apart(rest, End(b), to, x, y);
    }
  }

  /** No block is listed twice, in one list or in both. */
  lemma {:induction false} ListedOnce(cells: seq<Cell>, from: nat, to: nat, b: Block)
    requires Chain(cells, from, to)
    ensures multiset(UsedOf(cells))[b] + multiset(FreeOf(cells))[b] <= 1
  {
    if cells != [] {
      var rest := cells[1..];
      ListedOnce(rest, End(cells[0].b), to, b);
      if b == cells[0].b {
        if b in FreeOf(rest) || b in UsedOf(rest) {
          ListedWithin(rest, End(b), to, b);
        }
      }
    }
  }

  /** Free blocks are sorted with a gap between any two. */
  lemma {:induction false} FreeGaps(cells: seq<Cell>, from: nat, to: nat, i: nat, j: nat)
    requires Chain(cells, from, to) && Compacted(cells) && i < j < |FreeOf(cells)|
    ensures End(FreeOf(cells)[i]) < FreeOf(cells)[j].addr
    decreases |cells|
  {
    var b, rest := cells[0].b, cells[1..];
    assert forall k | 0 < k < |rest| :: rest[k - 1] == cells[k] && rest[k] == cells[k + 1];
    if cells[0].used {
      FreeGaps(rest, End(b), to, i, j);
    } else if i > 0 {
      FreeGaps(rest, End(b), to, i - 1, j - 1);
    } else {
      var y := FreeOf(rest)[j - 1];
      assert y in FreeOf(rest) && rest != [];
      assert cells[0].used || cells[1].used;
      assert rest[0] == cells[1];
      ListedWithin(rest[1..], End(rest[0].b), to, y);
    }
  }

  /** Without used cells there is at most one cell. */
  lemma {:induction false} NoneUsed(cells: seq<Cell>, from: nat, to: nat)
    requires Chain(cells, from, to) && Compacted(cells) && UsedOf(cells) == []
    ensures from == to ==> FreeOf(cells) == []
    ensures from < to ==> |FreeOf(cells)| == 1 && FreeOf(cells)[0].addr == from && End(FreeOf(cells)[0]) == to
  {
    ChainOrder(cells, from, to);
    if cells != [] {
      assert !cells[0].used;
      assert cells[1..] == [];
    }
  }
}
