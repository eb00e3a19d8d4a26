/** Releasing a whole tree (walk_free and vpage_tree_free). */
module FreeTree {
  import opened Common
  import opened Types
  import opened PageTables
  import opened Pages
  import opened Vpages
  import opened AddressSpaces
  import C = CowModel

  /** Memory while the tree `r` has been released below page number `d`; `vm`
      is the flat view before. */
  ghost predicate Freeing(s: St, vm: C.Vm, r: nat, d: Vpn) {
    Releasing(s, vm, r, d) && Trimmed(s, r)
  }

  ghost predicate Releasing(s: St, vm: C.Vm, r: nat, d: Vpn) {
    && Settled(s) && r < |s.fr| && s.role[r] == Root && s.dead[r] == d && s.held[r] == 1
    && LeavesGone(Leaves(s), vm.leaves, r, d) && Survive(s, vm) && SameRoots(s, vm)
  }

  ghost predicate LeavesGone(now: map<C.Key, Pte>, was: map<C.Key, Pte>, r: nat, d: Vpn) {
    forall k :: LeafGone(now, was, r, d, k)
  }

  ghost predicate Survive(s: St, vm: C.Vm)
    requires Sized(s)
  {
    forall x :: DataAt(s, x) == Survivor(vm, Leaves(s), x)
  }

  ghost predicate SameRoots(s: St, vm: C.Vm)
    requires Sized(s)
  {
    forall x: nat :: x in vm.roots <==> x < |s.fr| && s.role[x] == Root
  }

  ghost predicate LeafGone(now: map<C.Key, Pte>, was: map<C.Key, Pte>, r: nat, d: Vpn, k: C.Key) {
    Get(now, k) == if k.0 == r && Before(k.1, d) then None else Get(was, k)
  }

  /** The content page `x` of `vm` still has when the leaves are `now`. */
  ghost function Survivor(vm: C.Vm, now: map<C.Key, Pte>, x: nat): Option<Page> {
    if x in vm.data && (C.Held(vm.leaves, x) ==> C.Held(now, x)) then Some(vm.data[x]) else None
  }

  /** No table of `r` is left that lies wholly in the released part. */
  ghost predicate Trimmed(s: St, r: nat)
    requires Sized(s) && r < |s.fr|
  {
    forall q | 0 <= q < |s.fr| :: TrimmedAt(s, r, q)
  }

  ghost predicate TrimmedAt(s: St, r: nat, q: nat)
    requires Sized(s) && r < |s.fr| && q < |s.fr|
  {
    && (s.role[q].Low? && s.role[q].r == r ==> Before(s.dead[r], Vpn(s.role[q].a, s.role[q].b + 1, 0)))
    && (s.role[q].Mid? && s.role[q].r == r ==> Before(s.dead[r], Vpn(s.role[q].a + 1, 0, 0)))
  }

  /** The release only moves forward and only frees pages; the roots and tables
      of other trees are left alone, and so are the kernel's pages and the level
      1 tables that reach past the released part. */
  ghost predicate Spared(s: St, s': St, r: nat) {
    && Sized(s) && Sized(s') && |s'.fr| == |s.fr| && r < |s.fr| && !Before(s'.dead[r], s.dead[r])
    && forall p | 0 <= p < |s.fr| :: SparedAt(s, s', r, p)
  }

  ghost predicate SparedAt(s: St, s': St, r: nat, p: nat)
    requires Sized(s) && Sized(s') && |s'.fr| == |s.fr| && r < |s.fr| && p < |s.fr|
  {
    && (s'.role[p] == s.role[p] || s'.role[p] == FreePage)
    && (s.role[p].Root? && p != r ==> s'.role[p] == Root && s'.dead[p] == s.dead[p] && s'.held[p] == s.held[p])
    && ((s.role[p].Mid? || s.role[p].Low?) && s.role[p].r != r ==> s'.role[p] == s.role[p])
    && (s'.role[p].Data? ==> s'.held[p] == s.held[p])
    && (s.role[p].Image? ==> s'.role[p] == Image && s'.rc[p] == s.rc[p])
    && (s.role[p].Mid? && s.role[p].r == r && Before(s'.dead[r], Vpn(s.role[p].a + 1, 0, 0)) ==>
         s'.role[p] == s.role[p])
  }

  /** The part of it that is left when the release is over. */
  ghost predicate Cleared(s: St, s': St, r: nat) {
    && Sized(s) && Sized(s') && |s'.fr| == |s.fr|
    && forall p | 0 <= p < |s.fr| :: ClearedAt(s, s', r, p)
  }

  ghost predicate ClearedAt(s: St, s': St, r: nat, p: nat)
    requires Sized(s) && Sized(s') && |s'.fr| == |s.fr| && p < |s.fr|
  {
    && (s'.role[p] == s.role[p] || s'.role[p] == FreePage)
    && (s.role[p].Root? && p != r ==> s'.role[p] == Root && s'.held[p] == s.held[p])
    && ((s.role[p].Mid? || s.role[p].Low?) && s.role[p].r != r ==> s'.role[p] == s.role[p])
    && (s'.role[p].Data? ==> s'.held[p] == s.held[p])
    && (s.role[p].Image? ==> s'.role[p] == Image && s'.rc[p] == s.rc[p])
  }

  lemma SparedCleared(s: St, s': St, r: nat)
    requires Spared(s, s', r)
    ensures Cleared(s, s', r)
  {
    forall p | 0 <= p < |s.fr| ensures ClearedAt(s, s', r, p) {
      assert SparedAt(s, s', r, p);
    }
  }

  lemma LostCleared(s: St, s': St, q: nat, last: bool, r: nat)
    requires PageLost(s, s', q, last)
    ensures Cleared(s, s', r)
  {
    forall p | 0 <= p < |s.fr| ensures ClearedAt(s, s', r, p) {}
  }

  lemma ClearedTrans(s: St, t: St, s': St, r: nat)
    requires Cleared(s, t, r) && Cleared(t, s', r)
    ensures Cleared(s, s', r)
  {
    forall p | 0 <= p < |s.fr| ensures ClearedAt(s, s', r, p) {
      assert ClearedAt(s, t, r, p) && ClearedAt(t, s', r, p);
    }
  }

  lemma SparedTrans(s: St, t: St, s': St, r: nat)
    requires Spared(s, t, r) && Spared(t, s', r)
    ensures Spared(s, s', r)
  {
    forall p | 0 <= p < |s.fr| ensures SparedAt(s, s', r, p) {
      assert SparedAt(s, t, r, p) && SparedAt(t, s', r, p);
    }
  }

  // ------------------------------------------------------------------- skipping ahead

  /** The released part may grow from `d` to `d'` over page numbers without a
      leaf. */
  lemma FreeSkips(s: St, vm: C.Vm, r: nat, d: Vpn, d': Vpn)
    requires Releasing(s, vm, r, d) && !Before(d', d)
    requires forall v | !Before(v, d) && Before(v, d') :: Leaf(s, (r, v)) == None
    ensures Releasing(DeadSt(s, r, d'), vm, r, d') && Spared(s, DeadSt(s, r, d'), r)
  {
    var s' := DeadSt(s, r, d');
    DeadOk(s, r, d');
    QuietStays(s, s');
    forall k ensures LeafGone(Leaves(s'), vm.leaves, r, d', k) {
      assert LeafGone(Leaves(s), vm.leaves, r, d, k);
      assert Get(Leaves(s), k) == Leaf(s, k);
    }
    forall x ensures DataAt(s', x) == Survivor(vm, Leaves(s'), x) {
      assert DataAt(s', x) == DataAt(s, x);
    }
    forall p | 0 <= p < |s.fr| ensures SparedAt(s, s', r, p) {}
  }

  /** Advancing within a table swallows no table but those released already. */
  lemma StillTrimmed(s: St, r: nat, lvl: nat, base: Vpn, table: nat, i: nat)
    requires Inv(s) && r < |s.fr| && s.role[r] == Root && TableAt(s, r, lvl, base, table) && i < ENTRIES
    requires s.dead[r] == Child(base, lvl, i) && Trimmed(s, r) && (lvl > 0 ==> !At(s.fr[table], i).v)
    ensures Trimmed(DeadSt(s, r, Child(base, lvl, i + 1)), r)
  {
    var s' := DeadSt(s, r, Child(base, lvl, i + 1));
    forall q | 0 <= q < |s.fr| ensures TrimmedAt(s', r, q) {
      assert TrimmedAt(s, r, q);
      Unfold(s);
      assert PageOk(s, q) && PageOk(s, table);
    }
  }

  // -------------------------------------------------------------------- freeing a leaf

  /** `s'` lost the leaf (r, v), and its page as well if this was the last
      counted leaf of it. */
  ghost predicate Dropped(s: St, s': St, r: nat, v: Vpn, last: bool) {
    && Settled(s) && Settled(s')
    && (r, v) in Leaves(s) && Leaves(s') == Leaves(s) - {(r, v)}
    && (last <==> !Leaves(s)[(r, v)].fl.g && C.Sole(Leaves(s), (r, v)))
    && PageLost(s, s', Leaves(s)[(r, v)].ppn, last)
  }

  lemma DroppedCounted(s: St, r: nat, v: Vpn)
    requires Counted(s, r, v)
    ensures var p := Leaves(s)[(r, v)].ppn; Dropped(s, UnmapSt(s, r, v, p), r, v, s.rc[p] == 1)
  {
    UnmapKeepsInv(s, r, v);
    UnmapFields(s, r, v);
    SoleByCount(s, (r, v));
    LostSettled(s, UnmapSt(s, r, v, Leaves(s)[(r, v)].ppn), (r, v), s.rc[Leaves(s)[(r, v)].ppn] == 1);
  }

  lemma DroppedGlobal(s: St, r: nat, v: Vpn)
    requires Settled(s) && (r, v) in Leaves(s) && Leaves(s)[(r, v)].fl.g && CanPutLeaf(s, r, v, NO_PTE)
    ensures Dropped(s, Rebind(s, r, v, NO_PTE), r, v, false)
  {
    Unfold(s);
    LeafFacts(s, (r, v));
    ConsistentShrink(Leaves(s), (r, v));
    RebindOk(s, r, v, NO_PTE);
    RebindFields(s, r, v, NO_PTE);
    QuietStays(s, Rebind(s, r, v, NO_PTE));
  }

  /** Global leaves hold no page. */
  lemma HeldWithout(leaves: map<C.Key, Pte>, k: C.Key, p: nat)
    requires k in leaves && leaves[k].fl.g
    ensures C.Held(leaves, p) <==> C.Held(leaves - {k}, p)
  {
    var now := leaves - {k};
    if j :| j in leaves && C.Holds(leaves, j, p) {
      assert C.Holds(now, j, p);
    }
    if j :| j in now && C.Holds(now, j, p) {
      assert C.Holds(leaves, j, p);
    }
  }

  lemma SurvivorDrop(vm: C.Vm, leaves: map<C.Key, Pte>, k: C.Key, x: nat)
    requires k in leaves && Get(vm.leaves, k) == Get(leaves, k)
    ensures Survivor(vm, leaves - {k}, x) ==
              if x == leaves[k].ppn && !leaves[k].fl.g && C.Sole(leaves, k) then None else Survivor(vm, leaves, x)
  {
    HeldShrinks(leaves, k, x);
    if leaves[k].fl.g {
      HeldWithout(leaves, k, x);
    } else {
      C.HeldRemove(leaves, k, x);
      assert C.Holds(vm.leaves, k, leaves[k].ppn);
    }
  }

  lemma HeldShrinks(leaves: map<C.Key, Pte>, k: C.Key, p: nat)
    ensures C.Held(leaves - {k}, p) ==> C.Held(leaves, p)
  {
    var now := leaves - {k};
    if j :| j in now && C.Holds(now, j, p) {
      assert C.Holds(leaves, j, p);
    }
  }

  /** The loop has freed the leaf at `v` and moves on. */
  lemma DroppedFrees(s: St, s': St, vm: C.Vm, r: nat, v: Vpn, last: bool)
    requires Freeing(s, vm, r, v) && Dropped(s, s', r, v, last)
    requires Trimmed(DeadSt(s', r, C.Succ(v)), r)
    ensures Freeing(DeadSt(s', r, C.Succ(v)), vm, r, C.Succ(v))
  {
    var t := DeadSt(s', r, C.Succ(v));
    assert LeafGone(Leaves(s), vm.leaves, r, v, (r, v));
    DroppedSettles(s', r, v);
    DroppedLeaves(Leaves(s), vm.leaves, r, v);
    DroppedData(s, s', t, vm, r, v, last);
    assert SameRoots(t, vm);
  }

  lemma DroppedData(s: St, s': St, t: St, vm: C.Vm, r: nat, v: Vpn, last: bool)
    requires Sized(s) && Sized(t) && Survive(s, vm) && (r, v) in Leaves(s) &&
             Get(vm.leaves, (r, v)) == Get(Leaves(s), (r, v))
    requires PageLost(s, s', Leaves(s)[(r, v)].ppn, last)
    requires last <==> !Leaves(s)[(r, v)].fl.g && C.Sole(Leaves(s), (r, v))
    requires Leaves(t) == Leaves(s) - {(r, v)} && t.fr == s'.fr && t.role == s'.role
    ensures Survive(t, vm)
  {
    forall x ensures DataAt(t, x) == Survivor(vm, Leaves(t), x) {
      SurvivorDrop(vm, Leaves(s), (r, v), x);
      assert DataAt(t, x) == DataAt(s', x);
    }
  }

  lemma DroppedSettles(s: St, r: nat, v: Vpn)
    requires Settled(s) && r < |s.fr| && s.role[r] == Root && s.dead[r] == v && (r, v) !in Leaves(s)
    ensures Settled(DeadSt(s, r, C.Succ(v))) && Leaves(DeadSt(s, r, C.Succ(v))) == Leaves(s)
  {
    NothingLeft(s, r, v);
    BeforeSucc(C.Succ(v), v);
    DeadOk(s, r, C.Succ(v));
    QuietStays(s, DeadSt(s, r, C.Succ(v)));
  }

  lemma NothingLeft(s: St, r: nat, v: Vpn)
    requires Inv(s) && (r, v) !in Leaves(s)
    ensures forall w | !Before(w, v) && Before(w, C.Succ(v)) :: Leaf(s, (r, w)) == None
  {
    assert Get(Leaves(s), (r, v)) == Leaf(s, (r, v));
    forall w | !Before(w, v) && Before(w, C.Succ(v)) ensures Leaf(s, (r, w)) == None {
      BeforeSucc(w, v);
    }
  }

  lemma BeforeSucc(w: Vpn, v: Vpn)
    ensures Before(w, C.Succ(v)) <==> Before(w, v) || w == v
  {
  }

  lemma DroppedLeaves(now: map<C.Key, Pte>, was: map<C.Key, Pte>, r: nat, v: Vpn)
    requires LeavesGone(now, was, r, v)
    ensures LeavesGone(now - {(r, v)}, was, r, C.Succ(v))
  {
    forall k ensures LeafGone(now - {(r, v)}, was, r, C.Succ(v), k) {
      assert LeafGone(now, was, r, v, k);
      BeforeSucc(k.1, v);
    }
  }

  // ------------------------------------------------------------------------- walk_free

  /** `Freeing` as a value, which keeps it folded in the contracts below. */
  ghost function StageOf(s: St, vm: C.Vm, r: nat, d: Vpn): Stage {
    if Freeing(s, vm, r, d) then OnTrack else Lost
  }

  /** The loop can go on after the leaf at `v` made way for `t`. */
  ghost predicate Freed(s: St, t: St, vm: C.Vm, r: nat, v: Vpn, table: nat) {
    && Sized(t) && r < |t.fr|
    && var s' := DeadSt(t, r, C.Succ(v));
    && StageOf(s', vm, r, C.Succ(v)) == OnTrack && Spared(s, s', r) && TableAt(s', r, 0, Vpn(v.i2, v.i1, 0), table)
  }

  /** `table` is where walk_free finds the leaf at `v`. */
  ghost predicate LeafTable(s: St, r: nat, v: Vpn, table: nat) {
    && InRange(v) && TableAt(s, r, 0, Vpn(v.i2, v.i1, 0), table) && IsTable(s.fr[table])
    && Leaf(s, (r, v)) == Some(At(s.fr[table], v.i0)) && LowPage(s, r, v.i2, v.i1) == Some(table)
  }

  lemma FreedTrim(s: St, t: St, r: nat, v: Vpn, p: nat, last: bool)
    requires PageLost(s, t, p, last) && r < |s.fr| && s.dead[r] == v && Trimmed(DeadSt(s, r, C.Succ(v)), r)
    ensures var s' := DeadSt(t, r, C.Succ(v)); Trimmed(s', r) && Spared(s, s', r)
  {
    var s' := DeadSt(t, r, C.Succ(v));
    forall q | 0 <= q < |s.fr| ensures TrimmedAt(s', r, q) && SparedAt(s, s', r, q) {
      assert TrimmedAt(DeadSt(s, r, C.Succ(v)), r, q);
    }
  }

  lemma TrimNext(s: St, r: nat, v: Vpn, table: nat)
    requires Inv(s) && r < |s.fr| && s.role[r] == Root && s.dead[r] == v && Trimmed(s, r) && LeafTable(s, r, v, table)
    ensures Trimmed(DeadSt(s, r, C.Succ(v)), r)
  {
    StillTrimmed(s, r, 0, Vpn(v.i2, v.i1, 0), table, v.i0);
  }

  lemma LostTable(s: St, t: St, r: nat, v: Vpn, p: nat, last: bool, table: nat)
    requires PageLost(s, t, p, last) && r < |s.fr| && LeafTable(s, r, v, table)
    ensures TableAt(DeadSt(t, r, C.Succ(v)), r, 0, Vpn(v.i2, v.i1, 0), table)
  {
  }

  lemma FreedLeaf(s: St, t: St, vm: C.Vm, r: nat, v: Vpn, last: bool, table: nat)
    requires Freeing(s, vm, r, v) && Dropped(s, t, r, v, last) && LeafTable(s, r, v, table)
    ensures Freed(s, t, vm, r, v, table)
  {
    TrimNext(s, r, v, table);
    LostTable(s, t, r, v, Leaves(s)[(r, v)].ppn, last, table);
    FreedTrim(s, t, r, v, Leaves(s)[(r, v)].ppn, last);
    DroppedFrees(s, t, vm, r, v, last);
  }

  lemma CountedFrees(s: St, vm: C.Vm, r: nat, v: Vpn, table: nat)
    requires StageOf(s, vm, r, v) == OnTrack && LeafTable(s, r, v, table) && !At(s.fr[table], v.i0).fl.g
    ensures var p := At(s.fr[table], v.i0).ppn;
            && p < |s.fr| && p != table && s.rc[p] > 0 && r < |s.fr|
            && Freed(s, UnmapSt(s, r, v, p), vm, r, v, table)
  {
    LeafFacts(s, (r, v));
    CountedLeaf(s, r, v);
    DroppedCounted(s, r, v);
    FreedLeaf(s, UnmapSt(s, r, v, At(s.fr[table], v.i0).ppn), vm, r, v, s.rc[At(s.fr[table], v.i0).ppn] == 1, table);
  }

  lemma GlobalFrees(s: St, vm: C.Vm, r: nat, v: Vpn, table: nat)
    requires StageOf(s, vm, r, v) == OnTrack && LeafTable(s, r, v, table) && At(s.fr[table], v.i0).fl.g
    ensures CanPutLeaf(s, r, v, NO_PTE) && Freed(s, Rebind(s, r, v, NO_PTE), vm, r, v, table)
  {
    LeafFacts(s, (r, v));
    Unfold(s);
    DroppedGlobal(s, r, v);
    FreedLeaf(s, Rebind(s, r, v, NO_PTE), vm, r, v, false, table);
  }

  /** What walk_free does with a leaf: global pages are not put. */
  method FreeLeaf(m: Memory, table: nat, i: nat, pte: Pte, ghost vm: C.Vm, ghost r: nat, ghost v: Vpn)
    requires StageOf(m.S(), vm, r, v) == OnTrack && LeafTable(m.S(), r, v, table)
    requires i == v.i0 && pte == At(m.fr[table], i)
    modifies m
    ensures StageOf(m.S(), vm, r, C.Succ(v)) == OnTrack && Spared(old(m.S()), m.S(), r)
    ensures TableAt(m.S(), r, 0, Vpn(v.i2, v.i1, 0), table)
  {
    if !pte.fl.g {
      CountedFrees(m.S(), vm, r, v, table);
      ClearAndPut(m, table, i, r, v);
    } else {
      GlobalFrees(m.S(), vm, r, v, table);
      WriteLeaf(m, table, i, NO_PTE, r, v);
    }
    m.dead := m.dead[r := C.Succ(v)];
  }

  /** An entry that is not valid leads to no leaf. */
  lemma SkipEmpty(s: St, vm: C.Vm, r: nat, lvl: nat, base: Vpn, table: nat, i: nat)
    requires StageOf(s, vm, r, Child(base, lvl, i)) == OnTrack && TableAt(s, r, lvl, base, table) && i < ENTRIES
    requires !At(s.fr[table], i).v
    ensures var s' := DeadSt(s, r, Child(base, lvl, i + 1));
            && StageOf(s', vm, r, Child(base, lvl, i + 1)) == OnTrack && Spared(s, s', r)
            && TableAt(s', r, lvl, base, table)
  {
    EntryAt(s, r, lvl, base, table, i);
    forall v | !Before(v, Child(base, lvl, i)) && Before(v, Child(base, lvl, i + 1)) ensures Leaf(s, (r, v)) == None {
      if InRange(v) {
        UnderChild(base, lvl, i, v);
      }
    }
    FreeSkips(s, vm, r, Child(base, lvl, i), Child(base, lvl, i + 1));
    StillTrimmed(s, r, lvl, base, table, i);
  }

  /** All entries of the table are done: what follows it comes next. */
  lemma EndOfTable(s: St, vm: C.Vm, r: nat, lvl: nat, base: Vpn, table: nat)
    requires Freeing(s, vm, r, Child(base, lvl, ENTRIES)) && TableAt(s, r, lvl, base, table)
    ensures Releasing(DeadSt(s, r, After(base, lvl)), vm, r, After(base, lvl))
    ensures forall q | 0 <= q < |s.fr| && q != table :: TrimmedAt(DeadSt(s, r, After(base, lvl)), r, q)
    ensures Spared(s, DeadSt(s, r, After(base, lvl)), r)
  {
    FreeSkips(s, vm, r, Child(base, lvl, ENTRIES), After(base, lvl));
    forall q | 0 <= q < |s.fr| && q != table ensures TrimmedAt(DeadSt(s, r, After(base, lvl)), r, q) {
      assert TrimmedAt(s, r, q);
      Unfold(s);
      assert PageOk(s, q) && PageOk(s, table);
    }
  }

  lemma TableRetired(s: St, r: nat, lvl: nat, base: Vpn, table: nat)
    requires Inv(s) && r < |s.fr| && s.dead[r] == After(base, lvl) && TableAt(s, r, lvl, base, table) && s.held[r] == 1
    requires forall q | 0 <= q < |s.fr| && q != table :: TrimmedAt(s, r, q)
    ensures Retired(s, table)
  {
    Unfold(s);
    if lvl == 1 {
      forall q | 0 <= q < |s.fr| && s.role[q].Low? && s.role[q].r == r ensures s.role[q].a != base.i2 {
        assert TrimmedAt(s, r, q);
      }
    }
    if lvl == 2 {
      forall q | 0 <= q < |s.fr| && (s.role[q].Mid? || s.role[q].Low?) ensures s.role[q].r != r {
        assert TrimmedAt(s, r, q) && PageOk(s, q);
      }
    }
  }

  /** Putting a finished table below the root. */
  lemma RetireTable(s: St, vm: C.Vm, r: nat, lvl: nat, base: Vpn, table: nat)
    requires lvl < 2 && TableAt(s, r, lvl, base, table) && Releasing(s, vm, r, After(base, lvl))
    requires forall q | 0 <= q < |s.fr| && q != table :: TrimmedAt(s, r, q)
    ensures s.rc[table] == 1 && StageOf(PutSt(s, table), vm, r, After(base, lvl)) == OnTrack
    ensures Spared(s, PutSt(s, table), r)
  {
    TableRetired(s, r, lvl, base, table);
    RetireOk(s, table);
    var s' := PutSt(s, table);
    RetiredKeeps(s, vm, r, table);
    forall q | 0 <= q < |s.fr| ensures TrimmedAt(s', r, q) && SparedAt(s, s', r, q) {
      if q != table {
        assert TrimmedAt(s, r, q);
      }
    }
  }

  lemma RetiredKeeps(s: St, vm: C.Vm, r: nat, table: nat)
    requires Settled(s) && r < |s.fr| && table < |s.fr| && table != r && (s.role[table].Mid? || s.role[table].Low?)
    requires s.rc[table] == 1 && Inv(PutSt(s, table)) && Leaves(PutSt(s, table)) == Leaves(s)
    requires Survive(s, vm) && SameRoots(s, vm)
    ensures var s' := PutSt(s, table);
            && Settled(s') && Survive(s', vm) && SameRoots(s', vm)
            && s'.held == s.held && s'.dead == s.dead && s'.role == s.role[table := FreePage] && |s'.fr| == |s.fr|
  {
    Unfold(s);
    assert CountOk(s, table);
    var s' := PutSt(s, table);
    assert s'.held == s.held;
    QuietStays(s, s');
    PutData(s, table);
    forall x ensures DataAt(s', x) == Survivor(vm, Leaves(s'), x) {
      assert DataAt(s, x) == Survivor(vm, Leaves(s), x);
    }
  }

  /** One turn of the loop of walk_free. */
  method FreeEntry(m: Memory, table: nat, lvl: nat, ghost base: Vpn, i: nat, ghost vm: C.Vm, ghost r: nat)
    requires TableAt(m.S(), r, lvl, base, table) && i < ENTRIES
    requires StageOf(m.S(), vm, r, Child(base, lvl, i)) == OnTrack
    modifies m
    ensures StageOf(m.S(), vm, r, Child(base, lvl, i + 1)) == OnTrack && TableAt(m.S(), r, lvl, base, table)
    ensures Spared(old(m.S()), m.S(), r)
    decreases lvl, 0
  {
    ghost var child := Child(base, lvl, i);
    EntryAt(m.S(), r, lvl, base, table, i);
    var pte := AsTable(m.fr[table])[i];
    if !pte.v {
      SkipEmpty(m.S(), vm, r, lvl, base, table, i);
      m.dead := m.dead[r := Child(base, lvl, i + 1)];
    } else if lvl > 0 && IsPointer(pte) {
      assert After(child, lvl - 1) == Child(base, lvl, i + 1);
      ghost var s := m.S();
      WalkFree(m, pte.ppn, lvl - 1, child, vm, r);
      ParentStays(s, m.S(), r, lvl, base, table, i);
    } else {
      assert C.Succ(child) == Child(base, lvl, i + 1);
      FreeLeaf(m, table, i, pte, vm, r, child);
    }
  }

  lemma ParentStays(s: St, s': St, r: nat, lvl: nat, base: Vpn, table: nat, i: nat)
    requires lvl > 0 && TableAt(s, r, lvl, base, table) && i < ENTRIES && Spared(s, s', r)
    requires s'.dead[r] == Child(base, lvl, i + 1) && s'.role[r] == Root
    ensures TableAt(s', r, lvl, base, table)
  {
    assert SparedAt(s, s', r, table);
  }

  /** The loop of walk_free over the entries of one table. */
  method FreeLevel(m: Memory, table: nat, lvl: nat, ghost base: Vpn, ghost vm: C.Vm, ghost r: nat)
    requires TableAt(m.S(), r, lvl, base, table) && StageOf(m.S(), vm, r, base) == OnTrack
    modifies m
    ensures StageOf(m.S(), vm, r, Child(base, lvl, ENTRIES)) == OnTrack && TableAt(m.S(), r, lvl, base, table)
    ensures Spared(old(m.S()), m.S(), r)
    decreases lvl, 1
  {
    ghost var s := m.S();
    var i := 0;
    assert Child(base, lvl, 0) == base;
    while i < ENTRIES
      invariant 0 <= i <= ENTRIES
      invariant StageOf(m.S(), vm, r, Child(base, lvl, i)) == OnTrack
      invariant TableAt(m.S(), r, lvl, base, table) && Spared(s, m.S(), r)
    {
      ghost var t := m.S();
      FreeEntry(m, table, lvl, base, i, vm, r);
      SparedTrans(s, t, m.S(), r);
      i := i + 1;
    }
  }

  /** walk_free on a table below the root. */
  method WalkFree(m: Memory, table: nat, lvl: nat, ghost base: Vpn, ghost vm: C.Vm, ghost r: nat)
    requires lvl < 2 && TableAt(m.S(), r, lvl, base, table) && StageOf(m.S(), vm, r, base) == OnTrack
    modifies m
    ensures StageOf(m.S(), vm, r, After(base, lvl)) == OnTrack && Spared(old(m.S()), m.S(), r)
    decreases lvl, 2
  {
    ghost var s := m.S();
    FreeLevel(m, table, lvl, base, vm, r);
    ghost var t := m.S();
    EndOfTable(t, vm, r, lvl, base, table);
    m.dead := m.dead[r := After(base, lvl)];
    RetireTable(m.S(), vm, r, lvl, base, table);
    SparedTrans(s, t, m.S(), r);
    SparedTrans(s, m.S(), PutSt(m.S(), table), r);
    m.PagePut(table);
  }

  // ------------------------------------------------------------------- vpage_tree_free

  lemma FreeStarts(s: St, r: nat)
    requires Settled(s) && Tree(s, r) && s.held[r] == 1
    ensures Freeing(s, Abs(s), r, FIRST)
  {
    forall q | 0 <= q < |s.fr| ensures TrimmedAt(s, r, q) {}
    forall x ensures DataAt(s, x) == Survivor(Abs(s), Leaves(s), x) {
      assert Get(Abs(s).data, x) == DataAt(s, x);
    }
    forall k ensures LeafGone(Leaves(s), Abs(s).leaves, r, FIRST, k) {}
  }

  /** Putting the root ends the address space. */
  lemma RetireRoot(s: St, vm: C.Vm, r: nat)
    requires Releasing(s, vm, r, END) && Retired(s, r)
    ensures s.rc[r] == 1
    ensures var s' := PutSt(s, r);
            && Settled(s') && Leaves(s') == Leaves(s) && Survive(s', vm) && Spared(s, s', r)
            && forall x: nat :: x in vm.roots - {r} <==> x < |s'.fr| && s'.role[x] == Root
  {
    RetireOk(s, r);
    var s' := PutSt(s, r);
    forall k ensures QuietAt(s', k) {
      assert QuietAt(s, k);
      LeafFacts(s, k);
    }
    PutData(s, r);
    forall x ensures DataAt(s', x) == Survivor(vm, Leaves(s'), x) {
      assert DataAt(s, x) == Survivor(vm, Leaves(s), x);
    }
    forall p | 0 <= p < |s.fr| ensures SparedAt(s, s', r, p) {}
  }

  lemma FreeEnds(s: St, s': St, r: nat)
    requires Inv(s) && Inv(s') && r in Abs(s).roots && LeavesGone(Leaves(s'), Leaves(s), r, END)
    requires Survive(s', Abs(s))
    requires forall x: nat :: x in Abs(s).roots - {r} <==> x < |s'.fr| && s'.role[x] == Root
    ensures Does(s, s', C.Free(r))
  {
    AbsInv(s);
    var vm := Abs(s);
    FreeLeaves(s, s', r);
    var data := C.Surviving(vm.data, vm.leaves, Leaves(s'));
    forall x ensures Get(data, x) == DataAt(s', x) {
      assert DataAt(s', x) == Survivor(vm, Leaves(s'), x);
    }
    AbsIs(s', C.Vm(vm.roots - {r}, Leaves(s'), data));
  }

  lemma FreeLeaves(s: St, s': St, r: nat)
    requires Inv(s) && Sized(s') && LeavesGone(Leaves(s'), Leaves(s), r, END)
    ensures Leaves(s') == C.Without(Leaves(s), r)
  {
    forall k ensures Get(Leaves(s'), k) == Get(C.Without(Leaves(s), r), k) {
      assert LeafGone(Leaves(s'), Leaves(s), r, END, k);
      LeafFacts(s, k);
    }
    MapExt(Leaves(s'), C.Without(Leaves(s), r));
  }

  /** vpage_tree_free of a tree with one user is the Free action. */
  method TreeFree(m: Memory, root: nat)
    requires Settled(m.S()) && Tree(m.S(), root) && m.held[root] == 1
    modifies m
    ensures Settled(m.S()) && Does(old(m.S()), m.S(), C.Free(root)) && Spared(old(m.S()), m.S(), root)
  {
    ghost var s := m.S();
    FreeStarts(s, root);
    FreeLevel(m, root, LEVELS - 1, FIRST, Abs(s), root);
    ghost var t := m.S();
    EndOfTable(t, Abs(s), root, 2, FIRST, root);
    m.dead := m.dead[root := END];
    TableRetired(m.S(), root, 2, FIRST, root);
    RetireRoot(m.S(), Abs(s), root);
    SparedTrans(s, t, m.S(), root);
    SparedTrans(s, m.S(), PutSt(m.S(), root), root);
    FreeEnds(s, PutSt(m.S(), root), root);
    m.PagePut(root);
  }
}
