/** The Sv39 page-table operations (vpages.c), run on physical memory. */
module Vpages {
  import opened Common
  import opened Types
  import opened PageTables
  import opened Pages
  import C = CowModel

  const LEVELS := 3

  /** The index that page number `v` has in a table of level `lvl`. */
  function Index(v: Vpn, lvl: nat): nat
    requires lvl < LEVELS
  {
    if lvl == 2 then v.i2 else if lvl == 1 then v.i1 else v.i0
  }

  /** Reading a page as a table is allowed only for a page that is one. */
  function AsTable(f: Frame): Ptes
    requires IsTable(f)
  {
    Entries(f)
  }

  /** Reading a page as bytes is allowed only for a page that is no table. */
  function AsBytes(f: Frame): Page
    requires f.Zeroed? || f.Bytes?
  {
    Content(f)
  }

  ghost predicate Tree(s: St, r: nat) {
    Inv(s) && r < |s.fr| && s.role[r] == Root && s.dead[r] == FIRST
  }

  /** `s'` is `s` with more tables in the tree of `r` and maybe other leaves
      and kernel references: no page in use changed its role or its count. */
  ghost predicate Grown(s: St, s': St, r: nat) {
    && Sized(s) && Sized(s') && |s'.fr| == |s.fr| && s'.dead == s.dead
    && forall p | 0 <= p < |s.fr| :: GrownAt(s, s', r, p)
  }

  ghost predicate GrownAt(s: St, s': St, r: nat, p: nat)
    requires Sized(s) && Sized(s') && |s'.fr| == |s.fr| && p < |s.fr|
  {
    if s.role[p] == FreePage
    then s'.role[p] == FreePage || (IsTableRole(s'.role[p]) && !s'.role[p].Root? && s'.role[p].r == r)
    else s'.role[p] == s.role[p] && s'.rc[p] == s.rc[p] && (IsTableRole(s.role[p]) || s'.fr[p] == s.fr[p])
  }

  lemma GrownTrans(s: St, m: St, s': St, r: nat)
    requires Grown(s, m, r) && Grown(m, s', r)
    ensures Grown(s, s', r)
  {
    forall p | 0 <= p < |s.fr| ensures GrownAt(s, s', r, p) {
      assert GrownAt(s, m, r, p) && GrownAt(m, s', r, p);
    }
  }

  lemma GrownData(s: St, s': St, r: nat)
    requires Grown(s, s', r)
    ensures forall x :: DataAt(s', x) == DataAt(s, x)
    ensures Abs(s').roots == Abs(s).roots && Abs(s').data == Abs(s).data
  {
    forall x: nat ensures DataAt(s', x) == DataAt(s, x) {
      assert x < |s.fr| ==> GrownAt(s, s', r, x);
    }
    MapExt(Abs(s').data, Abs(s).data);
    forall x: nat ensures x in Abs(s').roots <==> x in Abs(s).roots {
      assert x < |s.fr| ==> GrownAt(s, s', r, x);
    }
  }

  /** Tables a mapping of page number `v` still has to allocate. */
  ghost function Missing(s: St, r: nat, v: Vpn): nat
    requires r < |s.fr| && InRange(v)
  {
    if !At(s.fr[r], v.i2).v then 2 else if LowPage(s, r, v.i2, v.i1).None? then 1 else 0
  }

  /** The tables below a root, by the indices that lead to them. */
  datatype TableKey = MidKey(a: nat) | LowKey(a: nat, b: nat)

  predicate Has(s: St, r: nat, key: TableKey)
    requires r < |s.fr|
  {
    match key
    case MidKey(a) => a < ENTRIES && At(s.fr[r], a).v
    case LowKey(a, b) => a < ENTRIES && b < ENTRIES && LowPage(s, r, a, b).Some?
  }

  /** The tables on the path to page number `v`. */
  function PathTo(v: Vpn): set<TableKey> {
    {MidKey(v.i2), LowKey(v.i2, v.i1)}
  }

  /** The tables on the path to `v` down to level `lvl` have been added, each from
      the free list. */
  ghost predicate PathAdded(s: St, s': St, r: nat, v: Vpn, lvl: nat)
    requires r < |s.fr| && r < |s'.fr| && InRange(v)
  {
    && (forall key :: Has(s', r, key) <==>
          || Has(s, r, key) || (lvl <= 1 && key == MidKey(v.i2)) || (lvl == 0 && key == LowKey(v.i2, v.i1)))
    && |s'.free| == |s.free| - (if lvl == 2 then 0 else if lvl == 1 then (if At(s.fr[r], v.i2).v then 0 else 1)
                                else Missing(s, r, v))
  }

  // ------------------------------------------------------------------------ walk_leaf

  /** walk_leaf: page and index of the leaf entry for `v`, if `v` is mapped. */
  method WalkLeaf(m: Memory, root: nat, v: Vpn) returns (leaf: Option<(nat, nat)>)
    requires Tree(m.S(), root) && InRange(v)
    ensures leaf.None? <==> Leaf(m.S(), (root, v)).None?
    ensures leaf.Some? ==>
              && LowPage(m.S(), root, v.i2, v.i1) == Some(leaf.value.0) && leaf.value.0 < |m.fr|
              && leaf.value.1 == v.i0
              && Leaf(m.S(), (root, v)) == Some(At(m.fr[leaf.value.0], leaf.value.1))
              && m.role[leaf.value.0] == Low(root, v.i2, v.i1)
  {
    var table, lvl := root, LEVELS;
    Unfold(m.S());
    PathOk(m.S(), root, v);
    assert PageOk(m.S(), root);
    while lvl > 0
      invariant 0 <= lvl <= LEVELS && table < |m.fr|
      invariant lvl == 3 ==> table == root
      invariant lvl == 2 ==> At(m.fr[root], v.i2).v && At(m.fr[root], v.i2).ppn == table
      invariant lvl == 1 ==> LowPage(m.S(), root, v.i2, v.i1) == Some(table)
      invariant lvl > 0
    {
      lvl := lvl - 1;
      assert PageOk(m.S(), table);
      var i := Index(v, lvl);
      var pte := AsTable(m.fr[table])[i];
      if !pte.v {
        return None;
      }
      if !IsPointer(pte) {
        return Some((table, i));
      }
      table := pte.ppn;
    }
    return None;
  }

  // ------------------------------------------------------------------------ vpage_map

  /** Page `p` may be mapped at `k` by `e`: the caller owns a reference on it
      and the new leaf aliases no writable leaf. */
  ghost predicate Mappable(s: St, k: C.Key, e: Pte)
    requires Sized(s)
  {
    && LeafOk(s, e) && e.v && C.Consistent(Bind(Leaves(s), k, e))
    && (!e.fl.g ==> Give(s.held, Leaf(s, k))[e.ppn] > 0)
  }

  /** Table `table` is the one of level `lvl` on the path to page number `v`. */
  ghost predicate OnPath(s: St, root: nat, v: Vpn, lvl: nat, table: nat)
    requires Sized(s) && root < |s.fr| && InRange(v)
  {
    && table < |s.fr|
    && (lvl == 2 ==> table == root)
    && (lvl == 1 ==> s.role[table] == Mid(root, v.i2))
    && (lvl == 0 ==> LowPage(s, root, v.i2, v.i1) == Some(table))
  }

  function TableRole(root: nat, v: Vpn, lvl: nat): Role {
    if lvl == 2 then Mid(root, v.i2) else Low(root, v.i2, v.i1)
  }

  /** An empty entry on the path gets a fresh table. */
  lemma AllocLink(s: St, root: nat, v: Vpn, lvl: nat, table: nat)
    requires Tree(s, root) && InRange(v) && 1 <= lvl < LEVELS && OnPath(s, root, v, lvl, table)
    requires s.free != [] && !At(s.fr[table], Index(v, lvl)).v
    ensures s.free[0] < |s.fr|
    ensures var p := s.free[0];
            var s' := LinkSt(AllocSt(s), table, Index(v, lvl), p, TableRole(root, v, lvl));
            && Tree(s', root) && OnPath(s', root, v, lvl - 1, p)
            && Leaves(s') == Leaves(s) && s'.held == s.held && Grown(s, s', root)
  {
    Unfold(s);
    AllocOk(s);
    var p, i := s.free[0], Index(v, lvl);
    var s1 := AllocSt(s);
    assert CountOk(s, p) && PageOk(s, table);
    LinkTableOk(s1, table, i, p, TableRole(root, v, lvl));
    var s' := LinkSt(s1, table, i, p, TableRole(root, v, lvl));
    assert PageOk(s', p);
    assert s'.held == s.held;
  }

  /** Linking a fresh table adds it, and nothing else, to the tables. */
  lemma LinkHas(s: St, root: nat, v: Vpn, lvl: nat, table: nat, key: TableKey)
    requires Tree(s, root) && InRange(v) && 1 <= lvl < LEVELS && OnPath(s, root, v, lvl, table)
    requires s.free != [] && !At(s.fr[table], Index(v, lvl)).v
    ensures s.free[0] < |s.fr|
    ensures var s' := LinkSt(AllocSt(s), table, Index(v, lvl), s.free[0], TableRole(root, v, lvl));
            && |s'.fr| == |s.fr|
            && (Has(s', root, key) <==>
                  Has(s, root, key) || key == if lvl == 2 then MidKey(v.i2) else LowKey(v.i2, v.i1))
  {
    Unfold(s);
    assert FreeSlot(s, 0) && PageOk(s, root) && PageOk(s, table);
    if lvl == 2 {
      LinkHasMid(s, root, v, key);
    } else {
      LinkHasLow(s, root, v, table, key);
    }
  }

  lemma LinkHasMid(s: St, root: nat, v: Vpn, key: TableKey)
    requires Tree(s, root) && InRange(v) && s.free != [] && !At(s.fr[root], v.i2).v
    ensures s.free[0] < |s.fr|
    ensures var s' := LinkSt(AllocSt(s), root, v.i2, s.free[0], Mid(root, v.i2));
            |s'.fr| == |s.fr| && (Has(s', root, key) <==> Has(s, root, key) || key == MidKey(v.i2))
  {
    Unfold(s);
    assert FreeSlot(s, 0) && PageOk(s, root);
    LinkEntries(AllocSt(s), root, v.i2, s.free[0], Mid(root, v.i2));
    if key.a < ENTRIES && At(s.fr[root], key.a).v {
      assert LinkOk(s, At(s.fr[root], key.a), Mid(root, key.a));
    }
  }

  lemma LinkHasLow(s: St, root: nat, v: Vpn, table: nat, key: TableKey)
    requires Tree(s, root) && InRange(v) && s.free != [] && OnPath(s, root, v, 1, table) && !At(s.fr[table], v.i1).v
    ensures s.free[0] < |s.fr|
    ensures var s' := LinkSt(AllocSt(s), table, v.i1, s.free[0], Low(root, v.i2, v.i1));
            |s'.fr| == |s.fr| && (Has(s', root, key) <==> Has(s, root, key) || key == LowKey(v.i2, v.i1))
  {
    Unfold(s);
    assert FreeSlot(s, 0) && PageOk(s, root) && PageOk(s, table);
    LinkEntries(AllocSt(s), table, v.i1, s.free[0], Low(root, v.i2, v.i1));
    if key.a < ENTRIES && At(s.fr[root], key.a).v {
      assert LinkOk(s, At(s.fr[root], key.a), Mid(root, key.a));
    }
  }

  lemma PathStep(s0: St, s: St, s': St, root: nat, v: Vpn, lvl: nat, table: nat, created: bool)
    requires Tree(s0, root) && Tree(s, root) && Tree(s', root) && InRange(v) && 1 <= lvl < LEVELS
    requires OnPath(s, root, v, lvl, table) && PathAdded(s0, s, root, v, lvl)
    requires created <==> !At(s.fr[table], Index(v, lvl)).v
    requires created ==> s.free != [] && s.free[0] < |s.fr|
    requires s' == if created then LinkSt(AllocSt(s), table, Index(v, lvl), s.free[0], TableRole(root, v, lvl)) else s
    ensures PathAdded(s0, s', root, v, lvl - 1)
  {
    PathHad(s, root, v, lvl, table);
    forall key
      ensures Has(s', root, key) <==>
                Has(s, root, key) || key == if lvl == 2 then MidKey(v.i2) else LowKey(v.i2, v.i1)
    {
      if created {
        LinkHas(s, root, v, lvl, table, key);
      }
    }
    PathCounts(s0, s, root, v, lvl);
  }

  /** Whether the entry at this level is filled is whether the table is there. */
  lemma PathHad(s: St, root: nat, v: Vpn, lvl: nat, table: nat)
    requires Tree(s, root) && InRange(v) && 1 <= lvl < LEVELS && OnPath(s, root, v, lvl, table)
    ensures At(s.fr[table], Index(v, lvl)).v <==> Has(s, root, if lvl == 2 then MidKey(v.i2) else LowKey(v.i2, v.i1))
  {
    if lvl == 1 {
      MissingBelow(s, root, v, table);
      Unfold(s);
      assert PageOk(s, table);
    }
  }

  lemma PathCounts(s0: St, s: St, root: nat, v: Vpn, lvl: nat)
    requires Tree(s0, root) && root < |s.fr| && InRange(v) && PathAdded(s0, s, root, v, lvl)
    ensures lvl == 2 ==> (Has(s, root, MidKey(v.i2)) <==> Has(s0, root, MidKey(v.i2)))
    ensures lvl == 1 ==> (Has(s, root, LowKey(v.i2, v.i1)) <==> Has(s0, root, LowKey(v.i2, v.i1)))
    ensures Missing(s0, root, v) == (if Has(s0, root, MidKey(v.i2)) then 0 else 1) +
                                    (if Has(s0, root, LowKey(v.i2, v.i1)) then 0 else 1)
  {
  }

  lemma NextOnPath(s: St, root: nat, v: Vpn, lvl: nat, table: nat)
    requires Tree(s, root) && InRange(v) && 1 <= lvl < LEVELS && OnPath(s, root, v, lvl, table)
    ensures IsTable(s.fr[table])
    ensures At(s.fr[table], Index(v, lvl)).v ==> OnPath(s, root, v, lvl - 1, At(s.fr[table], Index(v, lvl)).ppn)
  {
    Unfold(s);
    assert PageOk(s, table) && PageOk(s, root);
    PathOk(s, root, v);
  }

  /** One turn of the loop of vpage_map: the table below `table`, allocated
      and linked if the entry is empty. */
  method NextTable(m: Memory, root: nat, v: Vpn, lvl: nat, table: nat) returns (next: Option<nat>, created: bool)
    requires Tree(m.S(), root) && InRange(v) && 1 <= lvl < LEVELS && OnPath(m.S(), root, v, lvl, table)
    modifies m
    ensures created <==> !At(old(m.fr)[table], Index(v, lvl)).v && old(m.free) != []
    ensures next.None? <==> !At(old(m.fr)[table], Index(v, lvl)).v && old(m.free) == []
    ensures !created ==> m.S() == old(m.S())
    ensures created ==>
              && next == Some(old(m.free)[0]) && next.value < |m.fr| == |old(m.fr)|
              && m.S() == LinkSt(AllocSt(old(m.S())), table, Index(v, lvl), next.value, TableRole(root, v, lvl))
    ensures next.Some? ==>
              && Tree(m.S(), root) && OnPath(m.S(), root, v, lvl - 1, next.value)
              && Leaves(m.S()) == Leaves(old(m.S())) && m.held == old(m.held) && Grown(old(m.S()), m.S(), root)
  {
    NextOnPath(m.S(), root, v, lvl, table);
    var i := Index(v, lvl);
    var pte := AsTable(m.fr[table])[i];
    created := !pte.v && m.free != [];
    if !pte.v {
      if m.free != [] {
        AllocLink(m.S(), root, v, lvl, table);
      }
      var page := m.PageAlloc();
      if page.None? {
        return None, false;
      }
      pte := Pointer(page.value);
      m.fr := m.fr[table := SetEntry(m.fr[table], i, pte)];
      m.role := m.role[page.value := TableRole(root, v, lvl)];
      m.held := m.held[page.value := 0];
      assert m.S() == LinkSt(AllocSt(old(m.S())), table, i, page.value, TableRole(root, v, lvl));
    }
    next := Some(pte.ppn);
  }

  lemma MissingBelow(s: St, root: nat, v: Vpn, table: nat)
    requires Tree(s, root) && InRange(v) && OnPath(s, root, v, 1, table)
    ensures Missing(s, root, v) == if At(s.fr[table], Index(v, 1)).v then 0 else 1
  {
    Unfold(s);
    assert PageOk(s, table);
  }

  /** With the tables in place, writing the leaf completes the mapping. */
  lemma StillMappable(s0: St, s: St, root: nat, v: Vpn, e: Pte)
    requires Tree(s0, root) && InRange(v) && Mappable(s0, (root, v), e)
    requires Tree(s, root) && Grown(s0, s, root) && Leaves(s) == Leaves(s0) && s.held == s0.held
    ensures Mappable(s, (root, v), e) && Leaf(s, (root, v)) == Leaf(s0, (root, v))
  {
    Unfold(s);
    Unfold(s0);
    assert GrownAt(s0, s, root, e.ppn);
    assert Get(Leaves(s), (root, v)) == Leaf(s, (root, v)) && Get(Leaves(s0), (root, v)) == Leaf(s0, (root, v));
  }

  lemma FinishMap(s0: St, s: St, root: nat, v: Vpn, e: Pte)
    requires Tree(s0, root) && InRange(v) && Mappable(s0, (root, v), e)
    requires Tree(s, root) && Grown(s0, s, root) && Leaves(s) == Leaves(s0) && s.held == s0.held
    requires LowPage(s, root, v.i2, v.i1).Some?
    ensures LowPage(s, root, v.i2, v.i1).value < |s.fr|
    ensures var s' := Rebind(s, root, v, e);
            && Tree(s', root) && Grown(s0, s', root) && Leaves(s') == Leaves(s0)[(root, v) := e]
            && s'.held == Take(Give(s0.held, Leaf(s0, (root, v))), e)
  {
    Unfold(s);
    PathOk(s, root, v);
    StillMappable(s0, s, root, v, e);
    RebindOk(s, root, v, e);
    GrownTrans(s0, s, Rebind(s, root, v, e), root);
  }

  /** The state a failed vpage_map leaves after it took the last free page for
      the level 1 table. */
  lemma Dangling(s: St, root: nat, v: Vpn)
    requires Tree(s, root) && InRange(v) && |s.free| == 1 && !At(s.fr[root], v.i2).v
    ensures s.free[0] < |s.fr|
    ensures var p := s.free[0];
            var s1 := LinkSt(AllocSt(s), root, v.i2, p, Mid(root, v.i2));
            && s1.rc[p] == 1 && root != p
            && var s' := PutSt(s1, p);
            At(s'.fr[root], v.i2) == Pointer(p) && p in s'.free && !Inv(s')
  {
    Unfold(s);
    AllocLink(s, root, v, 2, root);
    var p := s.free[0];
    var s1 := LinkSt(AllocSt(s), root, v.i2, p, Mid(root, v.i2));
    Unfold(s1);
    assert CountOk(s1, p);
    var s' := PutSt(s1, p);
    assert !PageOk(s', root);
    assert !Tables(s') && Opened(s', true);
  }

  /** `s` is `s0` after the level 1 table for `v` was allocated and linked. */
  ghost predicate LinkedMid(s0: St, s: St, root: nat, v: Vpn, allocs: seq<Option<nat>>)
    requires Sized(s0) && root < |s0.fr| && InRange(v)
  {
    && s0.free != [] && s0.free[0] < |s0.fr| && !At(s0.fr[root], v.i2).v
    && allocs == [None, None, Some(s0.free[0])]
    && s == LinkSt(AllocSt(s0), root, v.i2, s0.free[0], Mid(root, v.i2))
  }

  /** The descent of vpage_map. `error` is the level at which the allocator
      ran dry, or 0; `allocs` records the tables allocated on the way. */
  method BuildPath(m: Memory, root: nat, v: Vpn) returns (table: nat, error: nat, allocs: seq<Option<nat>>)
    requires Tree(m.S(), root) && InRange(v)
    modifies m
    ensures error == 0 ==>
              && Tree(m.S(), root) && OnPath(m.S(), root, v, 0, table) && Grown(old(m.S()), m.S(), root)
              && Leaves(m.S()) == Leaves(old(m.S())) && m.held == old(m.held)
              && |old(m.free)| >= Missing(old(m.S()), root, v) && PathAdded(old(m.S()), m.S(), root, v, 0)
    ensures error != 0 ==> error <= 2 && m.free == []
    ensures error != 0 && allocs == [None, None, None] ==>
              m.S() == old(m.S()) && Missing(old(m.S()), root, v) > 0
    ensures error != 0 && allocs != [None, None, None] ==>
              error == 1 && LinkedMid(old(m.S()), m.S(), root, v, allocs)
  {
    table := root;
    var lvl := LEVELS - 1;
    allocs := [None, None, None];
    ghost var s0 := m.S();
    while lvl > 0
      invariant 0 <= lvl < LEVELS && |allocs| == LEVELS
      invariant Tree(m.S(), root) && OnPath(m.S(), root, v, lvl, table) && Grown(s0, m.S(), root)
      invariant Leaves(m.S()) == Leaves(s0) && m.held == s0.held
      invariant lvl == 2 ==> m.S() == s0 && allocs == [None, None, None]
      invariant lvl == 1 ==> (m.S() == s0 && allocs == [None, None, None]) || LinkedMid(s0, m.S(), root, v, allocs)
      invariant lvl == 0 ==> |s0.free| >= Missing(s0, root, v)
      invariant PathAdded(s0, m.S(), root, v, lvl)
    {
      if lvl == 1 {
        MissingBelow(m.S(), root, v, table);
      }
      ghost var s := m.S();
      var next, created := NextTable(m, root, v, lvl, table);
      if next.None? {
        return table, lvl, allocs;
      }
      GrownTrans(s0, s, m.S(), root);
      PathStep(s0, s, m.S(), root, v, lvl, table, created);
      if created {
        allocs := allocs[lvl := next];
      }
      table := next.value;
      lvl := lvl - 1;
    }
    error := 0;
  }

  /** The store to a leaf entry, with the references it moves. */
  method WriteLeaf(m: Memory, table: nat, i: nat, e: Pte, ghost root: nat, ghost v: Vpn)
    requires Sized(m.S()) && root < |m.fr| && InRange(v) && table < |m.fr| && i == v.i0
    requires LowPage(m.S(), root, v.i2, v.i1) == Some(table)
    modifies m
    ensures m.S() == Rebind(old(m.S()), root, v, e)
  {
    ghost var l := Leaf(m.S(), (root, v));
    m.fr := m.fr[table := SetEntry(m.fr[table], i, e)];
    m.held := Take(Give(m.held, l), e);
  }

  /** The clean-up of vpage_map: put the tables allocated above level `error`. */
  method ReleaseTables(m: Memory, error: nat, allocs: seq<Option<nat>>)
    requires Sized(m.S()) && error <= 2
    requires allocs == [None, None, None] || (error == 1 && |allocs| == 3 && allocs[2].Some?)
    requires |allocs| == 3 && allocs[2].Some? ==> allocs[2].value < |m.fr| && m.rc[allocs[2].value] > 0
    modifies m
    ensures m.S() == if allocs[2].Some? then PutSt(old(m.S()), allocs[2].value) else old(m.S())
  {
    var lvl := LEVELS - 1;
    while lvl > error
      invariant error <= lvl <= 2
      invariant m.S() == if allocs[2].Some? && lvl < 2 then PutSt(old(m.S()), allocs[2].value) else old(m.S())
    {
      if allocs[lvl].Some? {
        m.PagePut(allocs[lvl].value);
      }
      lvl := lvl - 1;
    }
  }

  /** Writing a leaf leaves the tables alone. */
  lemma LeafPath(s0: St, s: St, root: nat, v: Vpn, e: Pte)
    requires Tree(s0, root) && Tree(s, root) && InRange(v) && PathAdded(s0, s, root, v, 0)
    requires LowPage(s, root, v.i2, v.i1).Some? && LowPage(s, root, v.i2, v.i1).value < |s.fr|
    ensures root < |Rebind(s, root, v, e).fr| && PathAdded(s0, Rebind(s, root, v, e), root, v, 0)
  {
    var s' := Rebind(s, root, v, e);
    forall key ensures Has(s', root, key) <==> Has(s, root, key) {
      LeafHas(s, root, v, e, root, key);
    }
  }

  lemma LeafHas(s: St, root: nat, v: Vpn, e: Pte, r: nat, key: TableKey)
    requires Tree(s, root) && Tree(s, r) && InRange(v)
    requires LowPage(s, root, v.i2, v.i1).Some? && LowPage(s, root, v.i2, v.i1).value < |s.fr|
    ensures |Rebind(s, root, v, e).fr| == |s.fr| && (Has(Rebind(s, root, v, e), r, key) <==> Has(s, r, key))
  {
    Unfold(s);
    PathOk(s, root, v);
    assert PageOk(s, r);
    if key.a < ENTRIES && At(s.fr[r], key.a).v {
      assert LinkOk(s, At(s.fr[r], key.a), Mid(r, key.a));
    }
  }

  /** vpage_map. When the allocator runs dry at the second table, after the
      first one was allocated, the first is put back while the root entry
      still points to it: exactly then the tree is left broken. */
  method VpageMap(m: Memory, root: nat, v: Vpn, ppn: nat, fl: Flags) returns (ok: bool)
    requires Tree(m.S(), root) && InRange(v) && Mappable(m.S(), (root, v), LeafPte(ppn, fl))
    modifies m
    ensures ok <==> |old(m.free)| >= Missing(old(m.S()), root, v)
    ensures ok ==>
              && Tree(m.S(), root) && Grown(old(m.S()), m.S(), root)
              && Leaves(m.S()) == Leaves(old(m.S()))[(root, v) := LeafPte(ppn, fl)]
              && m.held == Take(Give(old(m.held), Leaf(old(m.S()), (root, v))), LeafPte(ppn, fl))
              && PathAdded(old(m.S()), m.S(), root, v, 0)
    ensures !ok && |old(m.free)| == 0 ==> m.S() == old(m.S())
    ensures !ok && |old(m.free)| != 0 ==>
              && root < |m.fr| && At(m.fr[root], v.i2).v && At(m.fr[root], v.i2).ppn in m.free
              && !Inv(m.S())
    ensures !ok ==> Sized(m.S()) && |m.fr| == |old(m.fr)|
    ensures !ok ==> forall p | 0 <= p < |m.fr| && old(m.role)[p] != FreePage :: m.rc[p] == old(m.rc)[p]
  {
    ghost var s0 := m.S();
    var table, error, allocs := BuildPath(m, root, v);
    if error == 0 {
      FinishMap(s0, m.S(), root, v, LeafPte(ppn, fl));
      LeafPath(s0, m.S(), root, v, LeafPte(ppn, fl));
      WriteLeaf(m, table, Index(v, 0), LeafPte(ppn, fl), root, v);
      return true;
    }
    if allocs != [None, None, None] {
      AllocOk(s0);
      Dangling(s0, root, v);
    }
    ReleaseTables(m, error, allocs);
    return false;
  }

  // --------------------------------------------------------------- walking a whole tree

  /** The first page number under entry `i` of the table at `base`. */
  function Child(base: Vpn, lvl: nat, i: nat): Vpn {
    if lvl == 2 then Vpn(i, 0, 0) else if lvl == 1 then Vpn(base.i2, i, 0) else Vpn(base.i2, base.i1, i)
  }

  /** The first page number after the table of level `lvl` at `base`. */
  function After(base: Vpn, lvl: nat): Vpn {
    if lvl == 2 then END else if lvl == 1 then Vpn(base.i2 + 1, 0, 0) else Vpn(base.i2, base.i1 + 1, 0)
  }

  /** `base` is the first page number of a table of level `lvl`. */
  ghost predicate ValidBase(base: Vpn, lvl: nat) {
    lvl < LEVELS && InRange(base) && base.i0 == 0 && (lvl >= 1 ==> base.i1 == 0) && (lvl == 2 ==> base.i2 == 0)
  }

  /** `table` is the table of level `lvl` of tree `r` for the page numbers
      from `base` on. */
  ghost predicate TableAt(s: St, r: nat, lvl: nat, base: Vpn, table: nat) {
    && Sized(s) && table < |s.fr| && ValidBase(base, lvl)
    && (lvl == 2 ==> table == r && s.role[r] == Root)
    && (lvl == 1 ==> s.role[table] == Mid(r, base.i2))
    && (lvl == 0 ==> s.role[table] == Low(r, base.i2, base.i1))
  }

  /** Page number `v` belongs to the entry of level `lvl` that starts at `c`. */
  predicate Under(c: Vpn, lvl: nat, v: Vpn) {
    v.i2 == c.i2 && (lvl <= 1 ==> v.i1 == c.i1) && (lvl == 0 ==> v.i0 == c.i0)
  }

  lemma UnderChild(base: Vpn, lvl: nat, i: nat, v: Vpn)
    requires ValidBase(base, lvl) && i < ENTRIES && InRange(v)
    ensures !Before(v, Child(base, lvl, i)) && Before(v, Child(base, lvl, i + 1)) <==>
            Under(Child(base, lvl, i), lvl, v)
  {
  }

  /** What the walk finds in entry `i` of a table: the next table, a leaf, or
      nothing mapped below it at all. */
  lemma EntryAt(s: St, r: nat, lvl: nat, base: Vpn, table: nat, i: nat)
    requires Inv(s) && r < |s.fr| && s.role[r] == Root && TableAt(s, r, lvl, base, table) && i < ENTRIES
    requires !Before(Child(base, lvl, i), s.dead[r])
    ensures IsTable(s.fr[table])
    ensures var e, c := At(s.fr[table], i), Child(base, lvl, i);
            && (e.v && lvl > 0 ==> IsPointer(e) && TableAt(s, r, lvl - 1, c, e.ppn))
            && (e.v && lvl == 0 ==> !IsPointer(e) && Leaf(s, (r, c)) == Some(e))
            && (lvl == 0 ==> LowPage(s, r, c.i2, c.i1) == Some(table) && c.i0 == i)
            && (!e.v ==> forall v | InRange(v) && Under(c, lvl, v) :: Leaf(s, (r, v)) == None)
  {
    Unfold(s);
    assert PageOk(s, table);
    if lvl == 0 {
      EntryLeaf(s, r, base, table, i);
    }
    if !At(s.fr[table], i).v {
      forall v | InRange(v) && Under(Child(base, lvl, i), lvl, v) ensures Leaf(s, (r, v)) == None {
        EntryEmpty(s, r, lvl, base, table, i, v);
      }
    }
  }

  lemma EntryLeaf(s: St, r: nat, base: Vpn, table: nat, i: nat)
    requires Sized(s) && Tables(s) && r < |s.fr| && s.role[r] == Root && TableAt(s, r, 0, base, table) && i < ENTRIES
    requires !Before(Child(base, 0, i), s.dead[r])
    ensures var e, c := At(s.fr[table], i), Child(base, 0, i);
            && LowPage(s, r, c.i2, c.i1) == Some(table)
            && (e.v ==> !IsPointer(e) && Leaf(s, (r, c)) == Some(e))
  {
    assert PageOk(s, table);
  }

  lemma EntryEmpty(s: St, r: nat, lvl: nat, base: Vpn, table: nat, i: nat, v: Vpn)
    requires Sized(s) && Tables(s) && r < |s.fr| && s.role[r] == Root && TableAt(s, r, lvl, base, table) && i < ENTRIES
    requires !Before(Child(base, lvl, i), s.dead[r]) && !At(s.fr[table], i).v
    requires InRange(v) && Under(Child(base, lvl, i), lvl, v)
    ensures Leaf(s, (r, v)) == None
  {
    assert PageOk(s, table);
    PathOk(s, r, v);
  }
}
