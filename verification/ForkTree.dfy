/** The lazy copy of a whole tree (copy_level and vpage_tree_copy). */
module ForkTree {
  import opened Common
  import opened Types
  import opened PageTables
  import opened Pages
  import opened Vpages
  import opened AddressSpaces
  import C = CowModel

  /** Memory while fork of `r` into `c` has handled the page numbers below
      `d`; `vm` is the flat view before. */
  ghost predicate Forking(s: St, vm: C.Vm, r: nat, c: nat, d: Vpn) {
    && Settled(s) && Tree(s, r) && Tree(s, c) && C.Forkable(vm, r, c) && SameRest(s, vm)
    && forall k :: StageAt(Leaves(s), vm.leaves, r, c, d, k)
  }

  ghost predicate StageAt(now: map<C.Key, Pte>, was: map<C.Key, Pte>, r: nat, c: nat, d: Vpn, k: C.Key) {
    Get(now, k) == C.ForkLeaf(was, r, c, d, k)
  }

  ghost predicate SameRest(s: St, vm: C.Vm)
    requires Sized(s)
  {
    && (forall x :: DataAt(s, x) == Get(vm.data, x))
    && (forall x: nat :: x in vm.roots <==> x < |s.fr| && s.role[x] == Root)
  }

  /** Pages in use keep their role, and the kernel its references; a page taken
      from the free list has become a table of `c`. */
  ghost predicate Kept(s: St, s': St, c: nat) {
    && Sized(s) && Sized(s') && |s'.fr| == |s.fr| && s'.dead == s.dead
    && forall p | 0 <= p < |s.fr| :: KeptAt(s, s', c, p)
  }

  ghost predicate KeptAt(s: St, s': St, c: nat, p: nat)
    requires Sized(s) && Sized(s') && |s'.fr| == |s.fr| && p < |s.fr|
  {
    if s.role[p] == FreePage then s'.role[p] == FreePage || TableOf(s'.role[p], c)
    else s'.role[p] == s.role[p] && (s.role[p] == Data || s.role[p] == Root ==> s'.held[p] == s.held[p])
  }

  /** A table below root `c`. */
  predicate TableOf(role: Role, c: nat) {
    (role.Mid? || role.Low?) && role.r == c
  }

  lemma KeptTrans(s: St, t: St, s': St, c: nat)
    requires Kept(s, t, c) && Kept(t, s', c)
    ensures Kept(s, s', c)
  {
    forall p | 0 <= p < |s.fr| ensures KeptAt(s, s', c, p) {
      assert KeptAt(s, t, c, p) && KeptAt(t, s', c, p);
    }
  }

  lemma KeptTable(s: St, s': St, c: nat, r: nat, lvl: nat, base: Vpn, table: nat)
    requires Kept(s, s', c) && TableAt(s, r, lvl, base, table)
    ensures TableAt(s', r, lvl, base, table)
  {
    assert KeptAt(s, s', c, table);
  }

  // --------------------------------------------------------- counts of global pages

  /** The global leaves of `r` below `d` that name page `p`. */
  function Globals(leaves: map<C.Key, Pte>, r: nat, d: Vpn, p: nat): set<C.Key> {
    set k | k in leaves && C.Copied(leaves, r, d, k) && leaves[k].fl.g && leaves[k].ppn == p
  }

  /** A uint8_t after `k` increments. */
  function Plus8(n: nat, k: nat): nat {
    if k == 0 then n else Inc8(Plus8(n, k - 1))
  }

  /** Fork takes a reference for every global leaf, which nobody gives back:
      the kernel pages have `rc0` plus one for each leaf handled so far. */
  ghost predicate Raised(s: St, rc0: seq<nat>, leaves: map<C.Key, Pte>, r: nat, d: Vpn) {
    && Sized(s) && |rc0| == |s.rc|
    && forall p | 0 <= p < |s.fr| && s.role[p] == Image :: s.rc[p] == Plus8(rc0[p], |Globals(leaves, r, d, p)|)
  }

  // ------------------------------------------------------- tables and the free list

  /** The tables on the paths to the leaves of `r` below `d` that fork copies. */
  function Needed(leaves: map<C.Key, Pte>, r: nat, d: Vpn): set<TableKey> {
    set k, key | k in leaves && C.Copied(leaves, r, d, k) && key in PathTo(k.1) :: key
  }

  /** Those that tree `c` does not have in `s`. */
  function Demand(s: St, leaves: map<C.Key, Pte>, r: nat, c: nat, d: Vpn): set<TableKey>
    requires c < |s.fr|
  {
    set key | key in Needed(leaves, r, d) && !Has(s, c, key)
  }

  /** `s` has the tables that `s0` had and those needed below `d`, and the free
      list has paid for them. */
  ghost predicate Fed(s: St, s0: St, leaves: map<C.Key, Pte>, r: nat, c: nat, d: Vpn) {
    && c < |s.fr| && c < |s0.fr| && |s0.free| == |s.free| + |Demand(s0, leaves, r, c, d)|
    && forall key :: Has(s, c, key) <==> Has(s0, c, key) || key in Needed(leaves, r, d)
  }

  /** The free list of `s` does not cover the tables fork needs. */
  ghost predicate Short(s: St, leaves: map<C.Key, Pte>, r: nat, c: nat) {
    c < |s.fr| && |s.free| < |Demand(s, leaves, r, c, END)|
  }

  /** `Short` as a value, folded: `UnsealShort` opens it. */
  ghost function Supply(s: St, leaves: map<C.Key, Pte>, r: nat, c: nat): Stage {
    if forall open {:trigger Sealed(s, s, open)} :: Sealed(s, s, open) ==> Short(s, leaves, r, c)
    then Lost else OnTrack
  }

  lemma UnsealShort(s: St, leaves: map<C.Key, Pte>, r: nat, c: nat)
    requires Supply(s, leaves, r, c) == Lost
    ensures Short(s, leaves, r, c)
  {
    assert Sealed(s, s, true);
  }

  ghost predicate SameTables(s: St, s': St, c: nat) {
    c < |s.fr| && c < |s'.fr| && s'.free == s.free && forall key :: Has(s', c, key) <==> Has(s, c, key)
  }

  lemma FedStarts(s: St, r: nat, c: nat)
    requires Sized(s) && c < |s.fr|
    ensures Fed(s, s, Leaves(s), r, c, FIRST)
  {
    assert Needed(Leaves(s), r, FIRST) == {};
    assert Demand(s, Leaves(s), r, c, FIRST) == {};
  }

  lemma NeededNext(leaves: map<C.Key, Pte>, r: nat, v: Vpn)
    requires (r, v) in leaves && v != TRAPFRAME && forall k | k in leaves :: InRange(k.1)
    ensures Needed(leaves, r, C.Succ(v)) == Needed(leaves, r, v) + PathTo(v)
  {
    forall k | k in leaves ensures Before(k.1, C.Succ(v)) <==> Before(k.1, v) || k.1 == v {}
    forall k | k in leaves ensures C.Copied(leaves, r, C.Succ(v), k) <==> C.Copied(leaves, r, v, k) || k == (r, v) {}
    forall key ensures key in Needed(leaves, r, C.Succ(v)) <==> key in Needed(leaves, r, v) + PathTo(v) {
      if key in PathTo(v) {
        assert C.Copied(leaves, r, C.Succ(v), (r, v));
      }
    }
  }

  lemma NeededGrows(leaves: map<C.Key, Pte>, r: nat, v: Vpn)
    requires forall k | k in leaves :: InRange(k.1)
    ensures Needed(leaves, r, C.Succ(v)) <= Needed(leaves, r, END)
  {
    forall k | k in leaves && C.Copied(leaves, r, C.Succ(v), k) ensures C.Copied(leaves, r, END, k) {}
  }

  /** What the next leaf needs beyond the tables there are. */
  lemma DemandNext(s: St, s0: St, leaves: map<C.Key, Pte>, r: nat, c: nat, v: Vpn)
    requires Fed(s, s0, leaves, r, c, v) && InRange(v)
    requires (r, v) in leaves && v != TRAPFRAME && forall k | k in leaves :: InRange(k.1)
    ensures |Demand(s0, leaves, r, c, C.Succ(v))| == |Demand(s0, leaves, r, c, v)| + Missing(s, c, v)
  {
    NeededNext(leaves, r, v);
    var was, now := Demand(s0, leaves, r, c, v), Demand(s0, leaves, r, c, C.Succ(v));
    var mid, low := MidKey(v.i2), LowKey(v.i2, v.i1);
    MissingIs(s, c, v);
    assert forall key :: key in now <==> key in was || (key in PathTo(v) && !Has(s, c, key));
    TwoMore(was, now, mid, low, Has(s, c, mid), Has(s, c, low));
  }

  lemma MissingIs(s: St, c: nat, v: Vpn)
    requires c < |s.fr| && InRange(v)
    ensures Missing(s, c, v) ==
            (if Has(s, c, MidKey(v.i2)) then 0 else 1) + (if Has(s, c, LowKey(v.i2, v.i1)) then 0 else 1)
  {
    assert Has(s, c, LowKey(v.i2, v.i1)) ==> Has(s, c, MidKey(v.i2));
  }

  lemma TwoMore<T>(was: set<T>, now: set<T>, x: T, y: T, hasX: bool, hasY: bool)
    requires x != y && (x in was ==> hasX) && (y in was ==> hasY)
    requires forall z :: z in now <==> z in was || (z == x && !hasX) || (z == y && !hasY)
    ensures |now| == |was| + (if hasX then 0 else 1) + (if hasY then 0 else 1)
  {
    assert now == was + (if hasX then {} else {x}) + (if hasY then {} else {y});
  }

  lemma FedCopies(s: St, u: St, s': St, s0: St, leaves: map<C.Key, Pte>, r: nat, c: nat, v: Vpn)
    requires Fed(s, s0, leaves, r, c, v) && InRange(v) && SameTables(s, u, c)
    requires (r, v) in leaves && v != TRAPFRAME && forall k | k in leaves :: InRange(k.1)
    ensures Missing(u, c, v) == Missing(s, c, v)
    ensures c < |s'.fr| && PathAdded(u, s', c, v, 0) ==> Fed(s', s0, leaves, r, c, C.Succ(v))
    ensures |u.free| < Missing(u, c, v) ==> Short(s0, leaves, r, c)
  {
    var mid, low := MidKey(v.i2), LowKey(v.i2, v.i1);
    assert (Has(u, c, mid) <==> Has(s, c, mid)) && (Has(u, c, low) <==> Has(s, c, low));
    DemandNext(s, s0, leaves, r, c, v);
    NeededNext(leaves, r, v);
    if |u.free| < Missing(u, c, v) {
      NeededGrows(leaves, r, v);
      SubsetSize(Demand(s0, leaves, r, c, C.Succ(v)), Demand(s0, leaves, r, c, END));
    }
  }

  lemma SubsetSize<T>(a: set<T>, b: set<T>)
    requires a <= b
    ensures |a| <= |b|
  {
    assert b == a + (b - a);
  }

  /** `Raised` and `Fed` as a value. */
  ghost function Tally(s: St, s0: St, vm: C.Vm, r: nat, c: nat, d: Vpn): Stage {
    if Raised(s, s0.rc, vm.leaves, r, d) && Fed(s, s0, vm.leaves, r, c, d) then OnTrack else Lost
  }

  lemma TallyStarts(s: St, r: nat, c: nat)
    requires Sized(s) && c < |s.fr|
    ensures Tally(s, s, Abs(s), r, c, FIRST) == OnTrack
  {
    forall p | 0 <= p < |s.fr| && s.role[p] == Image
      ensures s.rc[p] == Plus8(s.rc[p], |Globals(Leaves(s), r, FIRST, p)|)
    {
      assert Globals(Leaves(s), r, FIRST, p) == {};
    }
    FedStarts(s, r, c);
  }

  /** No leaf to copy lies between `d` and `d'`. */
  lemma TallySkips(s: St, s0: St, vm: C.Vm, r: nat, c: nat, d: Vpn, d': Vpn)
    requires Forking(s, vm, r, c, d) && Tally(s, s0, vm, r, c, d) == OnTrack
    requires forall v | InRange(v) && v != TRAPFRAME && Leaf(s, (r, v)).Some? :: Before(v, d) <==> Before(v, d')
    ensures Tally(s, s0, vm, r, c, d') == OnTrack
  {
    forall k | k in vm.leaves && k.0 == r && k.1 != TRAPFRAME ensures Before(k.1, d) <==> Before(k.1, d') {
      assert StageAt(Leaves(s), vm.leaves, r, c, d, k);
      LeafFacts(s, k);
    }
    forall p ensures Globals(vm.leaves, r, d', p) == Globals(vm.leaves, r, d, p) {}
    forall k | k in vm.leaves ensures C.Copied(vm.leaves, r, d, k) <==> C.Copied(vm.leaves, r, d', k) {}
    assert Needed(vm.leaves, r, d') == Needed(vm.leaves, r, d);
    assert Demand(s0, vm.leaves, r, c, d') == Demand(s0, vm.leaves, r, c, d);
  }

  lemma GlobalsNext(leaves: map<C.Key, Pte>, r: nat, v: Vpn, e: Pte, p: nat)
    requires Get(leaves, (r, v)) == Some(e) && v != TRAPFRAME && forall k | k in leaves :: InRange(k.1)
    ensures |Globals(leaves, r, C.Succ(v), p)| == |Globals(leaves, r, v, p)| + (if e.fl.g && e.ppn == p then 1 else 0)
  {
    var was, now := Globals(leaves, r, v, p), Globals(leaves, r, C.Succ(v), p);
    forall k | k in leaves ensures Before(k.1, C.Succ(v)) <==> Before(k.1, v) || k.1 == v {}
    if e.fl.g && e.ppn == p {
      assert now == was + {(r, v)};
    } else {
      assert now == was;
    }
  }

  lemma WasLeaf(s: St, vm: C.Vm, r: nat, c: nat, v: Vpn, e: Pte)
    requires Forking(s, vm, r, c, v) && Get(Leaves(s), (r, v)) == Some(e)
    ensures Get(vm.leaves, (r, v)) == Some(e) && (forall k | k in vm.leaves :: InRange(k.1))
    ensures e.ppn < |s.fr| && s.role[e.ppn] == if e.fl.g then Image else Data
  {
    C.ForkableIs(vm, r, c);
    assert StageAt(Leaves(s), vm.leaves, r, c, v, (r, v));
    LeafFacts(s, (r, v));
  }

  lemma RaisedCopies(s: St, s': St, rc0: seq<nat>, vm: C.Vm, r: nat, c: nat, v: Vpn, e: Pte)
    requires Forking(s, vm, r, c, v) && Raised(s, rc0, vm.leaves, r, v) && v != TRAPFRAME
    requires Get(Leaves(s), (r, v)) == Some(e) && Kept(s, s', c)
    requires forall p | 0 <= p < |s.fr| && s.role[p] == Image ::
             s'.rc[p] == if p == e.ppn then Inc8(s.rc[p]) else s.rc[p]
    ensures Raised(s', rc0, vm.leaves, r, C.Succ(v))
  {
    WasLeaf(s, vm, r, c, v, e);
    forall p | 0 <= p < |s'.fr| && s'.role[p] == Image
      ensures s'.rc[p] == Plus8(rc0[p], |Globals(vm.leaves, r, C.Succ(v), p)|)
    {
      assert KeptAt(s, s', c, p);
      GlobalsNext(vm.leaves, r, v, e, p);
    }
  }

  lemma TallyCopies(s: St, u: St, s': St, s0: St, vm: C.Vm, r: nat, c: nat, v: Vpn, e: Pte)
    requires Forking(s, vm, r, c, v) && Tally(s, s0, vm, r, c, v) == OnTrack && v != TRAPFRAME
    requires Get(Leaves(s), (r, v)) == Some(e) && Kept(s, s', c)
    requires forall p | 0 <= p < |s.fr| && s.role[p] == Image ::
             s'.rc[p] == if p == e.ppn then Inc8(s.rc[p]) else s.rc[p]
    requires InRange(v) && SameTables(s, u, c) && c < |s'.fr| && PathAdded(u, s', c, v, 0)
    ensures Tally(s', s0, vm, r, c, C.Succ(v)) == OnTrack
  {
    RaisedCopies(s, s', s0.rc, vm, r, c, v, e);
    WasLeaf(s, vm, r, c, v, e);
    FedCopies(s, u, s', s0, vm.leaves, r, c, v);
  }

  lemma TallyShort(s: St, u: St, s0: St, vm: C.Vm, r: nat, c: nat, v: Vpn, e: Pte)
    requires Forking(s, vm, r, c, v) && Tally(s, s0, vm, r, c, v) == OnTrack && v != TRAPFRAME
    requires Get(Leaves(s), (r, v)) == Some(e)
    requires InRange(v) && SameTables(s, u, c) && |u.free| < Missing(u, c, v)
    ensures Supply(s0, vm.leaves, r, c) == Lost
  {
    WasLeaf(s, vm, r, c, v, e);
    FedCopies(s, u, u, s0, vm.leaves, r, c, v);
  }

  // ------------------------------------------------------------------ nothing to copy

  /** Fork may advance from `d` to `d'` when no leaf to copy lies between. */
  lemma SkipTo(s: St, vm: C.Vm, r: nat, c: nat, d: Vpn, d': Vpn)
    requires Forking(s, vm, r, c, d)
    requires forall v | InRange(v) && v != TRAPFRAME && Leaf(s, (r, v)).Some? :: Before(v, d) <==> Before(v, d')
    ensures Forking(s, vm, r, c, d')
  {
    forall k ensures StageAt(Leaves(s), vm.leaves, r, c, d', k) {
      assert StageAt(Leaves(s), vm.leaves, r, c, d, k);
      assert StageAt(Leaves(s), vm.leaves, r, c, d, (r, k.1));
      LeafFacts(s, (r, k.1));
      C.ForkLeafSkip(vm, r, c, d, d', k);
    }
  }

  // -------------------------------------------------------------------- copying a leaf

  /** A writable leaf of the parent trades W for COW. */
  lemma ProtectOk(s: St, r: nat, v: Vpn, e: Pte)
    requires Settled(s) && Leaf(s, (r, v)) == Some(e) && e.fl.w && CanPutLeaf(s, r, v, Protect(e))
    ensures var s' := Rebind(s, r, v, Protect(e));
            Inv(s') && Leaves(s') == Leaves(s)[(r, v) := Protect(e)]
  {
    LeafFacts(s, (r, v));
    assert Get(Leaves(s), (r, v)) == Some(e);
    ProtectConsistent(s, (r, v), e);
    RebindOk(s, r, v, Protect(e));
  }

  lemma HeldStays(held: seq<nat>, e: Pte)
    requires !e.fl.g && e.v && e.ppn < |held|
    ensures Take(Give(held, Some(e)), Protect(e)) == held
  {
  }

  /** `t` is `s` with the leaf (r, v) of the parent protected. */
  ghost predicate Protected(s: St, t: St, k: C.Key, e: Pte) {
    && Settled(s) && Settled(t) && |t.fr| == |s.fr| && Get(Leaves(s), k) == Some(e)
    && Leaves(t) == Leaves(s)[k := Protect(e)] && t.role == s.role && t.held == s.held && t.dead == s.dead &&
         t.rc == s.rc
    && forall x :: DataAt(t, x) == DataAt(s, x)
  }

  lemma LeafTables(s: St, r: nat, v: Vpn, e: Pte, c: nat)
    requires Tree(s, r) && Tree(s, c) && InRange(v)
    requires LowPage(s, r, v.i2, v.i1).Some? && LowPage(s, r, v.i2, v.i1).value < |s.fr|
    ensures SameTables(s, Rebind(s, r, v, e), c)
  {
    forall key ensures Has(Rebind(s, r, v, e), c, key) <==> Has(s, c, key) {
      LeafHas(s, r, v, e, c, key);
    }
  }

  method ProtectLeaf(m: Memory, table: nat, i: nat, e: Pte, ghost r: nat, ghost v: Vpn, ghost c: nat)
    requires Settled(m.S()) && Leaf(m.S(), (r, v)) == Some(e) && r < |m.fr| && InRange(v)
    requires LowPage(m.S(), r, v.i2, v.i1) == Some(table) && table < |m.fr| && i == v.i0
    requires Tree(m.S(), r) && Tree(m.S(), c)
    modifies m
    ensures Protected(old(m.S()), m.S(), (r, v), e) && SameTables(old(m.S()), m.S(), c)
  {
    ghost var s := m.S();
    LeafFacts(s, (r, v));
    if e.fl.w {
      CanProtect(s, r, v, e);
      ProtectOk(s, r, v, e);
      RebindFields(s, r, v, Protect(e));
      HeldStays(s.held, e);
      LeafTables(s, r, v, Protect(e), c);
      WriteLeaf(m, table, i, Protect(e), r, v);
      ProtectSettled(s, m.S(), (r, v), e);
    } else {
      assert Leaves(s)[(r, v) := Protect(e)] == Leaves(s);
    }
  }

  lemma ProtectSettled(s: St, s': St, k: C.Key, e: Pte)
    requires Settled(s) && k in Leaves(s) && Leaves(s)[k] == e && Inv(s') && |s'.fr| == |s.fr| && s'.held == s.held
    requires Leaves(s') == Leaves(s)[k := Protect(e)]
    ensures Settled(s')
  {
    SettledRebound(s, s', k, Protect(e));
  }

  lemma CanProtect(s: St, r: nat, v: Vpn, e: Pte)
    requires Inv(s) && Leaf(s, (r, v)) == Some(e)
    ensures CanPutLeaf(s, r, v, Protect(e))
  {
    LeafFacts(s, (r, v));
    CanPutThere(s, r, v, Protect(e));
  }

  lemma ProtectConsistent(s: St, k: C.Key, e: Pte)
    requires Inv(s) && Get(Leaves(s), k) == Some(e) && e.fl.w
    ensures C.Consistent(Leaves(s)[k := Protect(e)])
  {
    Unfold(s);
    forall j | j in Leaves(s) && j != k ensures Leaves(s)[j].ppn != e.ppn {
      assert !C.Clash(Leaves(s), k, j);
    }
    ConsistentRebind(Leaves(s), k, Protect(e));
  }

  /** The 8-bit count of a page has room for one more space. */
  lemma CountFits(s: St, k: C.Key)
    requires Settled(s) && k in Leaves(s) && !Leaves(s)[k].fl.g && |Abs(s).roots| < 255
    ensures Leaves(s)[k].ppn < |s.fr| && s.rc[Leaves(s)[k].ppn] < 255
  {
    LeafFacts(s, k);
    Unfold(s);
    AbsInv(s);
    assert CountOk(s, Leaves(s)[k].ppn) && QuietAt(s, k);
    C.HoldersBounded(Abs(s), Leaves(s)[k].ppn);
  }

  lemma ShareCounts(t: St, k: C.Key)
    requires Settled(t) && k in Leaves(t) && |Abs(t).roots| < 255
    ensures var p := Leaves(t)[k].ppn;
            && p < |t.fr| && Inv(GetSt(t, p)) && Leaves(GetSt(t, p)) == Leaves(t)
            && (!Leaves(t)[k].fl.g ==> GetSt(t, p).held[p] > 0)
  {
    LeafFacts(t, k);
    if !Leaves(t)[k].fl.g {
      CountFits(t, k);
    }
    GetOk(t, Leaves(t)[k].ppn);
  }

  /** Once the parent is protected and the page has its new reference, the
      child may map it. */
  lemma ShareMappable(t: St, r: nat, c: nat, v: Vpn, e: Pte)
    requires Settled(t) && Get(Leaves(t), (r, v)) == Some(Protect(e)) && (c, v) !in Leaves(t)
    requires e.ppn < |t.fr| && Inv(GetSt(t, e.ppn)) && Leaves(GetSt(t, e.ppn)) == Leaves(t)
    requires !e.fl.g ==> GetSt(t, e.ppn).held[e.ppn] > 0
    requires C.Consistent(Leaves(t)[(c, v) := LeafPte(e.ppn, Protect(e).fl)])
    ensures Mappable(GetSt(t, e.ppn), (c, v), LeafPte(e.ppn, Protect(e).fl))
    ensures Leaf(GetSt(t, e.ppn), (c, v)) == None
  {
    LeafFacts(GetSt(t, e.ppn), (c, v));
    LeafFacts(t, (r, v));
  }

  /** The page is shared: fork has advanced by one page number. */
  lemma ShareDone(s: St, t: St, s': St, vm: C.Vm, r: nat, c: nat, v: Vpn, e: Pte)
    requires Forking(s, vm, r, c, v) && Protected(s, t, (r, v), e) && e.ppn < |t.fr| && v != TRAPFRAME
    requires Sized(GetSt(t, e.ppn)) && Grown(GetSt(t, e.ppn), s', c) && Tree(s', c)
    requires Leaves(s') == Leaves(t)[(c, v) := LeafPte(e.ppn, Protect(e).fl)]
    requires Kept(s, s', c) && Kept(t, s', c)
    ensures Forking(s', vm, r, c, C.Succ(v))
  {
    LeafFacts(s, (r, v));
    ShareRest(s, t, s', e.ppn, c, vm);
    ShareSettled(t, s', c, (r, v), (c, v), e);
    ShareLeaves(s, s', vm, r, c, v, e);
    assert KeptAt(s, s', c, r);
  }

  lemma ShareLeaves(s: St, s': St, vm: C.Vm, r: nat, c: nat, v: Vpn, e: Pte)
    requires Forking(s, vm, r, c, v) && InRange(v) && v != TRAPFRAME && Get(Leaves(s), (r, v)) == Some(e)
    requires Inv(s') && Leaves(s') == Leaves(s)[(r, v) := Protect(e)][(c, v) := LeafPte(e.ppn, Protect(e).fl)]
    ensures forall k :: StageAt(Leaves(s'), vm.leaves, r, c, C.Succ(v), k)
  {
    forall k ensures StageAt(Leaves(s'), vm.leaves, r, c, C.Succ(v), k) {
      ShareLeaf(s, vm, r, c, v, e, k);
    }
  }

  lemma ShareLeaf(s: St, vm: C.Vm, r: nat, c: nat, v: Vpn, e: Pte, k: C.Key)
    requires Forking(s, vm, r, c, v) && v != TRAPFRAME && Get(Leaves(s), (r, v)) == Some(e)
    ensures Get(Leaves(s)[(r, v) := Protect(e)][(c, v) := LeafPte(e.ppn, Protect(e).fl)], k) ==
            C.ForkLeaf(vm.leaves, r, c, C.Succ(v), k)
    ensures r != c && (c, v) !in Leaves(s)
  {
    assert StageAt(Leaves(s), vm.leaves, r, c, v, k);
    assert StageAt(Leaves(s), vm.leaves, r, c, v, (c, v));
    assert StageAt(Leaves(s), vm.leaves, r, c, v, (r, v));
    C.ForkLeafCopy(vm, r, c, v, e, k);
  }

  lemma ShareRest(s: St, t: St, s': St, p: nat, c: nat, vm: C.Vm)
    requires Sized(s) && Sized(t) && p < |t.fr| && |t.fr| == |s.fr| && t.role == s.role
    requires (forall x :: DataAt(t, x) == DataAt(s, x)) && SameRest(s, vm) && Grown(GetSt(t, p), s', c)
    ensures SameRest(s', vm)
  {
    var u := GetSt(t, p);
    GrownData(u, s', c);
    forall x ensures DataAt(s', x) == Get(vm.data, x) {
      assert DataAt(u, x) == DataAt(t, x);
    }
    forall x: nat ensures x in vm.roots <==> x < |s'.fr| && s'.role[x] == Root {
      assert x in Abs(s').roots <==> x in Abs(u).roots;
    }
  }

  lemma ShareKept(s: St, t: St, s': St, c: nat, e: Pte)
    requires Sized(s) && Sized(t) && |t.fr| == |s.fr| && t.role == s.role && t.held == s.held && t.dead == s.dead
    requires e.ppn < |t.fr| && s.role[e.ppn] == (if e.fl.g then Image else Data) && e.v
    requires Grown(GetSt(t, e.ppn), s', c)
    requires s'.held == Take(GetSt(t, e.ppn).held, LeafPte(e.ppn, Protect(e).fl))
    ensures Kept(s, s', c)
    ensures !e.fl.g ==> s'.held == s.held
  {
    var u := GetSt(t, e.ppn);
    forall p | 0 <= p < |s.fr| ensures KeptAt(s, s', c, p) {
      assert GrownAt(u, s', c, p);
    }
  }

  lemma ShareSettled(t: St, s': St, c: nat, k: C.Key, k': C.Key, e: Pte)
    requires Settled(t) && Inv(s') && |s'.fr| == |t.fr| && k in Leaves(t) && Leaves(t)[k] == Protect(e)
    requires Leaves(s') == Leaves(t)[k' := LeafPte(e.ppn, Protect(e).fl)]
    requires Kept(t, s', c)
    ensures Settled(s')
  {
    forall j ensures QuietAt(s', j) {
      if j == k' {
        ShareQuiet(t, s', c, k, j);
      } else if j in Leaves(t) {
        ShareQuiet(t, s', c, j, j);
      }
    }
  }

  lemma ShareQuiet(t: St, s': St, c: nat, o: C.Key, j: C.Key)
    requires Settled(t) && Sized(s') && Kept(t, s', c) && o in Leaves(t)
    requires j in Leaves(s') ==> Leaves(s')[j].ppn == Leaves(t)[o].ppn && Leaves(s')[j].fl.g == Leaves(t)[o].fl.g
    ensures QuietAt(s', j)
  {
    LeafFacts(t, o);
    assert QuietAt(t, o) && KeptAt(t, s', c, Leaves(t)[o].ppn);
  }

  lemma RootsStay(s: St, t: St, vm: C.Vm, r: nat, c: nat)
    requires Sized(s) && Sized(t) && t.role == s.role && |t.fr| == |s.fr|
    requires C.Forkable(vm, r, c) && SameRest(s, vm)
    ensures |Abs(t).roots| < 255
  {
    C.ForkableIs(vm, r, c);
    assert Abs(t).roots == vm.roots;
  }

  lemma ShareConsistent(s: St, vm: C.Vm, r: nat, c: nat, v: Vpn, e: Pte)
    requires Forking(s, vm, r, c, v) && v != TRAPFRAME && Get(Leaves(s), (r, v)) == Some(e)
    ensures r != c && (c, v) !in Leaves(s)
    ensures C.Consistent(Leaves(s)[(r, v) := Protect(e)][(c, v) := LeafPte(e.ppn, Protect(e).fl)])
  {
    var next := Leaves(s)[(r, v) := Protect(e)][(c, v) := LeafPte(e.ppn, Protect(e).fl)];
    forall k ensures Get(next, k) == C.ForkLeaf(vm.leaves, r, c, C.Succ(v), k) {
      ShareLeaf(s, vm, r, c, v, e, k);
    }
    ShareLeaf(s, vm, r, c, v, e, (c, v));
    C.ForkLeafConsistent(vm, r, c, C.Succ(v), next);
  }

  lemma GetTables(s: St, t: St, p: nat, c: nat)
    requires SameTables(s, t, c) && Sized(t) && p < |t.fr|
    ensures SameTables(s, GetSt(t, p), c)
  {
    var u := GetSt(t, p);
    forall key ensures Has(u, c, key) <==> Has(t, c, key) {}
  }

  /** The leaf case of copy_level. */
  method CopyLeaf(m: Memory, dst: nat, table: nat, i: nat, e: Pte, ghost vm: C.Vm, ghost s0: St, ghost r: nat,
                  v: Vpn)
    returns (ok: bool)
    requires Tally(m.S(), s0, vm, r, dst, v) == OnTrack
    requires Forking(m.S(), vm, r, dst, v) && InRange(v) && v != TRAPFRAME && i == v.i0
    requires Leaf(m.S(), (r, v)) == Some(e) && LowPage(m.S(), r, v.i2, v.i1) == Some(table) && table < |m.fr|
    modifies m
    ensures ok ==> Forking(m.S(), vm, r, dst, C.Succ(v)) && Kept(old(m.S()), m.S(), dst)
    ensures ok ==> Tally(m.S(), s0, vm, r, dst, C.Succ(v)) == OnTrack
    ensures !ok ==> Supply(s0, vm.leaves, r, dst) == Lost
  {
    ghost var s := m.S();
    LeafFacts(s, (r, v));
    ShareConsistent(s, vm, r, dst, v, e);
    ProtectLeaf(m, table, i, e, r, v, dst);
    ghost var t := m.S();
    RootsStay(s, t, vm, r, dst);
    ShareCounts(t, (r, v));
    m.PageGet(e.ppn);
    ghost var u := m.S();
    GetTables(s, t, e.ppn, dst);
    ShareMappable(t, r, dst, v, e);
    ok := VpageMap(m, dst, v, e.ppn, Protect(e).fl);
    if !ok {
      TallyShort(s, u, s0, vm, r, dst, v, e);
      // page_put panics on a count of zero, which only the never-dropped
      // counts of global pages can wrap to: the kernel stops there.
      if m.rc[e.ppn] > 0 {
        m.PagePut(e.ppn);
      }
      return;
    }
    ShareEnds(s, t, m.S(), vm, s0, r, dst, v, e);
  }

  lemma ShareEnds(s: St, t: St, s': St, vm: C.Vm, s0: St, r: nat, c: nat, v: Vpn, e: Pte)
    requires Forking(s, vm, r, c, v) && Tally(s, s0, vm, r, c, v) == OnTrack && v != TRAPFRAME && InRange(v)
    requires Protected(s, t, (r, v), e) && e.ppn < |t.fr| && s.role[e.ppn] == (if e.fl.g then Image else Data) && e.v
    requires Sized(GetSt(t, e.ppn)) && Grown(GetSt(t, e.ppn), s', c) && Tree(s', c)
    requires Leaves(s') == Leaves(t)[(c, v) := LeafPte(e.ppn, Protect(e).fl)]
    requires s'.held == Take(GetSt(t, e.ppn).held, LeafPte(e.ppn, Protect(e).fl))
    requires SameTables(s, GetSt(t, e.ppn), c) && PathAdded(GetSt(t, e.ppn), s', c, v, 0)
    ensures Forking(s', vm, r, c, C.Succ(v)) && Kept(s, s', c) && Tally(s', s0, vm, r, c, C.Succ(v)) == OnTrack
  {
    ShareKept(s, t, s', c, e);
    ShareKept(t, t, s', c, e);
    ShareDone(s, t, s', vm, r, c, v, e);
    ShareRaises(s, t, s', c, e);
    TallyCopies(s, GetSt(t, e.ppn), s', s0, vm, r, c, v, e);
  }

  lemma ShareRaises(s: St, t: St, s': St, c: nat, e: Pte)
    requires Sized(s) && Sized(t) && |t.fr| == |s.fr| && t.role == s.role && t.rc == s.rc && e.ppn < |t.fr|
    requires Grown(GetSt(t, e.ppn), s', c)
    ensures forall p | 0 <= p < |s.fr| && s.role[p] == Image ::
            s'.rc[p] == if p == e.ppn then Inc8(s.rc[p]) else s.rc[p]
  {
    forall p | 0 <= p < |s.fr| && s.role[p] == Image
      ensures s'.rc[p] == if p == e.ppn then Inc8(s.rc[p]) else s.rc[p]
    {
      assert GrownAt(GetSt(t, e.ppn), s', c, p);
    }
  }

  // ------------------------------------------------------------------------ copy_level

  lemma SkipTrapframe(s: St, vm: C.Vm, s0: St, r: nat, c: nat, base: Vpn, i: nat)
    requires ValidBase(base, 0) && i < ENTRIES && Child(base, 0, i) == TRAPFRAME
    requires Forking(s, vm, r, c, TRAPFRAME) && Tally(s, s0, vm, r, c, TRAPFRAME) == OnTrack
    ensures Forking(s, vm, r, c, Child(base, 0, i + 1)) && Tally(s, s0, vm, r, c, Child(base, 0, i + 1)) == OnTrack
  {
    TallySkips(s, s0, vm, r, c, TRAPFRAME, Child(base, 0, i + 1));
    SkipTo(s, vm, r, c, TRAPFRAME, Child(base, 0, i + 1));
  }

  lemma SkipEmpty(s: St, vm: C.Vm, s0: St, r: nat, c: nat, lvl: nat, base: Vpn, table: nat, i: nat)
    requires i < ENTRIES && TableAt(s, r, lvl, base, table) && !At(s.fr[table], i).v
    requires Forking(s, vm, r, c, Child(base, lvl, i)) && Tally(s, s0, vm, r, c, Child(base, lvl, i)) == OnTrack
    ensures Forking(s, vm, r, c, Child(base, lvl, i + 1)) && Tally(s, s0, vm, r, c, Child(base, lvl, i + 1)) == OnTrack
  {
    EntryAt(s, r, lvl, base, table, i);
    forall v | InRange(v) && v != TRAPFRAME && Leaf(s, (r, v)).Some?
      ensures Before(v, Child(base, lvl, i)) <==> Before(v, Child(base, lvl, i + 1))
    {
      UnderChild(base, lvl, i, v);
    }
    TallySkips(s, s0, vm, r, c, Child(base, lvl, i), Child(base, lvl, i + 1));
    SkipTo(s, vm, r, c, Child(base, lvl, i), Child(base, lvl, i + 1));
  }

  /** `Forking` as a value, which keeps it folded in the contracts below. */
  ghost function StageOf(s: St, vm: C.Vm, r: nat, c: nat, d: Vpn): Stage {
    if Forking(s, vm, r, c, d) then OnTrack else Lost
  }

  /** What copy_level has done when it has come to `d`: fork got that far, pages
      are kept, and the counts of global pages are up to date. (The quantifier
      keeps the definition folded; `Unseal` opens it.) */
  ghost function Copying(s: St, s': St, vm: C.Vm, s0: St, r: nat, c: nat, d: Vpn): Stage {
    if forall open {:trigger Sealed(s, s', open)} :: Sealed(s, s', open) ==> CopiedTo(s, s', vm, s0, r, c, d)
    then OnTrack else Lost
  }

  ghost predicate Sealed(s: St, s': St, open: bool) {
    true
  }

  ghost predicate CopiedTo(s: St, s': St, vm: C.Vm, s0: St, r: nat, c: nat, d: Vpn) {
    StageOf(s', vm, r, c, d) == OnTrack && Kept(s, s', c) && Tally(s', s0, vm, r, c, d) == OnTrack
  }

  lemma Unseal(s: St, s': St, vm: C.Vm, s0: St, r: nat, c: nat, d: Vpn)
    requires Copying(s, s', vm, s0, r, c, d) == OnTrack
    ensures CopiedTo(s, s', vm, s0, r, c, d)
  {
    assert Sealed(s, s', true);
  }

  /** One turn of the loop of copy_level. */
  method CopyEntry(m: Memory, dst: nat, table: nat, lvl: nat, base: Vpn, i: nat, ghost vm: C.Vm, ghost s0: St,
                   ghost r: nat)
    returns (ok: bool)
    requires i < ENTRIES && ValidBase(base, lvl)
    requires LevelStage(m.S(), m.S(), vm, s0, r, dst, lvl, base, table, i) == OnTrack
    modifies m
    ensures ok ==> Copying(old(m.S()), m.S(), vm, s0, r, dst, Child(base, lvl, i + 1)) == OnTrack
    ensures !ok ==> Supply(s0, vm.leaves, r, dst) == Lost
    decreases lvl, 0
  {
    var child := Child(base, lvl, i);
    assert Sealed(m.S(), m.S(), true);
    Unseal(m.S(), m.S(), vm, s0, r, dst, child);
    EntryAt(m.S(), r, lvl, base, table, i);
    ok := true;
    var pte := AsTable(m.fr[table])[i];
    if !pte.v {
      SkipEmpty(m.S(), vm, s0, r, dst, lvl, base, table, i);
      assert Copying(old(m.S()), m.S(), vm, s0, r, dst, Child(base, lvl, i + 1)) == OnTrack;
    } else if IsPointer(pte) {
      ok := CopyLevel(m, dst, pte.ppn, lvl - 1, child, vm, s0, r);
      assert After(child, lvl - 1) == Child(base, lvl, i + 1);
    } else if child != TRAPFRAME {
      ok := CopyLeaf(m, dst, table, i, pte, vm, s0, r, child);
      assert C.Succ(child) == Child(base, lvl, i + 1);
      assert ok ==> Copying(old(m.S()), m.S(), vm, s0, r, dst, C.Succ(child)) == OnTrack;
    } else {
      SkipTrapframe(m.S(), vm, s0, r, dst, base, i);
      assert Copying(old(m.S()), m.S(), vm, s0, r, dst, Child(base, lvl, i + 1)) == OnTrack;
    }
  }

  lemma FinishLevel(s: St, s': St, vm: C.Vm, s0: St, r: nat, c: nat, base: Vpn, lvl: nat)
    requires ValidBase(base, lvl) && Copying(s, s', vm, s0, r, c, Child(base, lvl, ENTRIES)) == OnTrack
    ensures Copying(s, s', vm, s0, r, c, After(base, lvl)) == OnTrack
  {
    Unseal(s, s', vm, s0, r, c, Child(base, lvl, ENTRIES));
    TallySkips(s', s0, vm, r, c, Child(base, lvl, ENTRIES), After(base, lvl));
    SkipTo(s', vm, r, c, Child(base, lvl, ENTRIES), After(base, lvl));
  }

  /** The loop invariant of copy_level, folded the same way. */
  ghost function LevelStage(s: St, t: St, vm: C.Vm, s0: St, r: nat, c: nat, lvl: nat, base: Vpn, table: nat,
                            i: nat): Stage
    requires i <= ENTRIES && ValidBase(base, lvl)
  {
    if forall open {:trigger Sealed(s, t, open)} :: Sealed(s, t, open) ==>
         Copying(s, t, vm, s0, r, c, Child(base, lvl, i)) == OnTrack && TableAt(t, r, lvl, base, table)
    then OnTrack else Lost
  }

  lemma LevelStarts(s: St, vm: C.Vm, s0: St, r: nat, c: nat, lvl: nat, base: Vpn, table: nat)
    requires TableAt(s, r, lvl, base, table) && Copying(s, s, vm, s0, r, c, base) == OnTrack
    ensures LevelStage(s, s, vm, s0, r, c, lvl, base, table, 0) == OnTrack
  {
    assert Child(base, lvl, 0) == base;
  }

  lemma LevelEnds(s: St, t: St, vm: C.Vm, s0: St, r: nat, c: nat, lvl: nat, base: Vpn, table: nat)
    requires ValidBase(base, lvl) && LevelStage(s, t, vm, s0, r, c, lvl, base, table, ENTRIES) == OnTrack
    ensures Copying(s, t, vm, s0, r, c, After(base, lvl)) == OnTrack
  {
    assert Sealed(s, t, true);
    FinishLevel(s, t, vm, s0, r, c, base, lvl);
  }

  lemma LevelAgain(s: St, t: St, vm: C.Vm, s0: St, r: nat, c: nat, lvl: nat, base: Vpn, table: nat, i: nat)
    requires i <= ENTRIES && ValidBase(base, lvl) && LevelStage(s, t, vm, s0, r, c, lvl, base, table, i) == OnTrack
    ensures LevelStage(t, t, vm, s0, r, c, lvl, base, table, i) == OnTrack
  {
    assert Sealed(s, t, true);
    Unseal(s, t, vm, s0, r, c, Child(base, lvl, i));
    KeptSelf(s, t, c);
  }

  lemma KeptSelf(s: St, t: St, c: nat)
    requires Kept(s, t, c)
    ensures Kept(t, t, c)
  {
    forall p | 0 <= p < |t.fr| ensures KeptAt(t, t, c, p) {}
  }

  lemma LevelStep(s: St, t: St, u: St, vm: C.Vm, s0: St, r: nat, c: nat, lvl: nat, base: Vpn, table: nat, i: nat)
    requires i < ENTRIES && ValidBase(base, lvl) && LevelStage(s, t, vm, s0, r, c, lvl, base, table, i) == OnTrack
    requires Copying(t, u, vm, s0, r, c, Child(base, lvl, i + 1)) == OnTrack
    ensures LevelStage(s, u, vm, s0, r, c, lvl, base, table, i + 1) == OnTrack
  {
    assert Sealed(s, t, true);
    Unseal(s, t, vm, s0, r, c, Child(base, lvl, i));
    Unseal(t, u, vm, s0, r, c, Child(base, lvl, i + 1));
    KeptTrans(s, t, u, c);
    KeptTable(t, u, c, r, lvl, base, table);
  }

  method CopyTurn(m: Memory, dst: nat, table: nat, lvl: nat, base: Vpn, i: nat, ghost vm: C.Vm, ghost s0: St,
                  ghost r: nat, ghost s: St)
    returns (ok: bool)
    requires i < ENTRIES && ValidBase(base, lvl)
    requires LevelStage(s, m.S(), vm, s0, r, dst, lvl, base, table, i) == OnTrack
    modifies m
    ensures ok ==> LevelStage(s, m.S(), vm, s0, r, dst, lvl, base, table, i + 1) == OnTrack
    ensures !ok ==> Supply(s0, vm.leaves, r, dst) == Lost
    decreases lvl, 1
  {
    ghost var t := m.S();
    LevelAgain(s, t, vm, s0, r, dst, lvl, base, table, i);
    ok := CopyEntry(m, dst, table, lvl, base, i, vm, s0, r);
    if ok {
      LevelStep(s, t, m.S(), vm, s0, r, dst, lvl, base, table, i);
    }
  }

  /** copy_level: fork handles all page numbers below the table `table`. */
  method CopyLevel(m: Memory, dst: nat, table: nat, lvl: nat, base: Vpn, ghost vm: C.Vm, ghost s0: St,
                   ghost r: nat)
    returns (ok: bool)
    requires TableAt(m.S(), r, lvl, base, table) && Copying(m.S(), m.S(), vm, s0, r, dst, base) == OnTrack
    modifies m
    ensures ok ==> Copying(old(m.S()), m.S(), vm, s0, r, dst, After(base, lvl)) == OnTrack
    ensures !ok ==> Supply(s0, vm.leaves, r, dst) == Lost
    decreases lvl, 2
  {
    ghost var s := m.S();
    var i := 0;
    LevelStarts(s, vm, s0, r, dst, lvl, base, table);
    while i < ENTRIES
      invariant 0 <= i <= ENTRIES
      invariant LevelStage(s, m.S(), vm, s0, r, dst, lvl, base, table, i) == OnTrack
    {
      ok := CopyTurn(m, dst, table, lvl, base, i, vm, s0, r, s);
      if !ok {
        return false;
      }
      i := i + 1;
    }
    LevelEnds(s, m.S(), vm, s0, r, dst, lvl, base, table);
    return true;
  }

  // ------------------------------------------------------------------- vpage_tree_copy

  /** `c` has no leaf at all. */
  ghost predicate EmptyTree(s: St, c: nat) {
    Tree(s, c) && C.IsEmpty(Leaves(s), c)
  }

  lemma ForkStarts(s: St, r: nat, c: nat)
    requires Settled(s) && Tree(s, r) && EmptyTree(s, c) && r != c && |Abs(s).roots| < 255
    ensures Forking(s, Abs(s), r, c, FIRST)
  {
    AbsInv(s);
    forall x ensures DataAt(s, x) == Get(Abs(s).data, x) {}
    forall k ensures StageAt(Leaves(s), Abs(s).leaves, r, c, FIRST, k) {}
  }

  lemma ForkEnds(s: St, s': St, r: nat, c: nat)
    requires Sized(s) && Forking(s', Abs(s), r, c, END)
    ensures Does(s, s', C.Fork(r, c))
  {
    var vm := Abs(s);
    forall k ensures Get(Leaves(s'), k) == C.ForkLeaf(vm.leaves, r, c, END, k) {
      assert StageAt(Leaves(s'), vm.leaves, r, c, END, k);
    }
    C.ForkLeafConsistent(vm, r, c, END, Leaves(s'));
    C.ForkIs(vm, r, c);
    AbsIs(s', C.Vm(vm.roots, Leaves(s'), vm.data));
  }

  /** vpage_tree_copy: on success it is the Fork action of the flat machine. It
      succeeds exactly if the free list covers the tables that `dst` lacks. */
  method TreeCopy(m: Memory, dst: nat, src: nat) returns (ok: bool)
    requires Settled(m.S()) && Tree(m.S(), src) && EmptyTree(m.S(), dst) && dst != src && |Abs(m.S()).roots| < 255
    modifies m
    ensures ok ==> Settled(m.S()) && Tree(m.S(), src) && Tree(m.S(), dst) && Kept(old(m.S()), m.S(), dst)
    ensures ok ==> Does(old(m.S()), m.S(), C.Fork(src, dst))
    ensures ok ==> Raised(m.S(), old(m.rc), Leaves(old(m.S())), src, END)
    ensures ok <==> |old(m.free)| >= |Demand(old(m.S()), Leaves(old(m.S())), src, dst, END)|
    ensures ok ==> Fed(m.S(), old(m.S()), Leaves(old(m.S())), src, dst, END)
  {
    ghost var s := m.S();
    ForkStarts(s, src, dst);
    TallyStarts(s, src, dst);
    ok := CopyLevel(m, dst, src, LEVELS - 1, FIRST, Abs(s), s, src);
    if ok {
      Unseal(s, m.S(), Abs(s), s, src, dst, END);
      ForkEnds(s, m.S(), src, dst);
    } else {
      UnsealShort(s, Leaves(s), src, dst);
    }
  }
}
