/** Unmapping, copy-on-write faults and copies to and from user memory: each
    operation on physical memory is one action of the flat machine. */
module AddressSpaces {
  import opened Common
  import opened Types
  import opened PageTables
  import opened Pages
  import opened Vpages
  import C = CowModel

  /** No mapped page has a kernel reference besides its leaves. */
  ghost predicate Settled(s: St) {
    Inv(s) && forall k :: QuietAt(s, k)
  }

  ghost predicate QuietAt(s: St, k: C.Key)
    requires Sized(s)
  {
    Quiet(Leaves(s), s.held, k)
  }

  /** The kernel has no reference of its own on a page with a counted leaf. */
  predicate Quiet(leaves: map<C.Key, Pte>, held: seq<nat>, k: C.Key) {
    k in leaves && !leaves[k].fl.g && leaves[k].ppn < |held| ==> held[leaves[k].ppn] == 0
  }

  /** Leaves that name the same pages as before are as quiet as before. */
  lemma QuietLeaves(was: map<C.Key, Pte>, now: map<C.Key, Pte>, held: seq<nat>)
    requires forall k :: Quiet(was, held, k)
    requires forall k :: k in now ==> k in was && now[k].ppn == was[k].ppn && now[k].fl.g == was[k].fl.g
    ensures forall k :: Quiet(now, held, k)
  {
    forall k ensures Quiet(now, held, k) {
      assert Quiet(was, held, k);
    }
  }

  lemma QuietRebound(leaves: map<C.Key, Pte>, now: map<C.Key, Pte>, held: seq<nat>, k: C.Key, e: Pte)
    requires now == leaves[k := e] && forall k :: Quiet(leaves, held, k)
    requires k in leaves && e.ppn == leaves[k].ppn && e.fl.g == leaves[k].fl.g
    ensures forall j :: Quiet(now, held, j)
  {
    QuietLeaves(leaves, now, held);
  }

  lemma QuietDropped(leaves: map<C.Key, Pte>, now: map<C.Key, Pte>, held: seq<nat>, k: C.Key)
    requires now == leaves - {k} && forall k :: Quiet(leaves, held, k)
    ensures forall j :: Quiet(now, held, j)
  {
    QuietLeaves(leaves, now, held);
  }

  lemma SettledQuiet(s: St)
    requires Settled(s)
    ensures forall k :: Quiet(Leaves(s), s.held, k)
  {
    forall k ensures Quiet(Leaves(s), s.held, k) {
      assert QuietAt(s, k);
    }
  }

  lemma QuietSettled(s: St, leaves: map<C.Key, Pte>, held: seq<nat>)
    requires Inv(s) && Leaves(s) == leaves && s.held == held && forall k :: Quiet(leaves, held, k)
    ensures Settled(s)
  {
    forall k ensures QuietAt(s, k) {
      assert Quiet(leaves, held, k);
    }
  }

  /** Quietness depends on the leaves and on the kernel references only. */
  lemma QuietStays(s: St, s': St)
    requires Settled(s) && Inv(s') && s'.held == s.held
    requires forall k :: k in Leaves(s') ==>
               k in Leaves(s) && Leaves(s')[k].ppn == Leaves(s)[k].ppn && Leaves(s')[k].fl.g == Leaves(s)[k].fl.g
    ensures Settled(s')
  {
    SettledQuiet(s);
    QuietLeaves(Leaves(s), Leaves(s'), s.held);
    QuietSettled(s', Leaves(s'), s.held);
  }

  lemma SettledRebound(s: St, s': St, k: C.Key, e: Pte)
    requires Settled(s) && Inv(s') && s'.held == s.held && k in Leaves(s) && Leaves(s') == Leaves(s)[k := e]
    requires e.ppn == Leaves(s)[k].ppn && e.fl.g == Leaves(s)[k].fl.g
    ensures Settled(s')
  {
    SettledQuiet(s);
    QuietRebound(Leaves(s), Leaves(s'), s.held, k, e);
    QuietSettled(s', Leaves(s'), s.held);
  }

  lemma LeafFacts(s: St, k: C.Key)
    requires Inv(s)
    ensures k in Leaves(s) <==> Leaf(s, k).Some?
    ensures k in Leaves(s) ==>
              && Leaves(s)[k] == Leaf(s, k).value && Leaves(s)[k].v && LeafOk(s, Leaves(s)[k])
              && k.0 < |s.fr| && s.role[k.0] == Root && InRange(k.1)
  {
    Unfold(s);
    assert Get(Leaves(s), k) == Leaf(s, k);
    if k in Leaves(s) {
      PathOk(s, k.0, k.1);
    }
  }

  /** A count of one is what tells the last holder of a page. */
  lemma SoleHolders(leaves: map<C.Key, Pte>, k: C.Key)
    requires k in leaves && !leaves[k].fl.g
    ensures |C.Holders(leaves, leaves[k].ppn)| == 1 <==> C.Sole(leaves, k)
  {
    var p := leaves[k].ppn;
    var hs := C.Holders(leaves, p);
    assert C.Holds(leaves, k, p) && k in hs;
    if |hs| == 1 {
      assert |hs - {k}| == 0;
      forall j | j in leaves && C.Holds(leaves, j, p) ensures j == k {
        assert j in hs && j !in hs - {k};
      }
    }
    if C.Sole(leaves, k) {
      assert hs == {k};
    }
  }

  lemma SoleByCount(s: St, k: C.Key)
    requires Settled(s) && k in Leaves(s) && !Leaves(s)[k].fl.g
    ensures Leaves(s)[k].ppn < |s.fr|
    ensures s.rc[Leaves(s)[k].ppn] == 1 <==> C.Sole(Leaves(s), k)
  {
    Unfold(s);
    LeafFacts(s, k);
    var p := Leaves(s)[k].ppn;
    assert CountOk(s, p) && QuietAt(s, k);
    SoleHolders(Leaves(s), k);
  }

  // ---------------------------------------------------------- what the counts mean

  /** A page outside the kernel image is on the free list, once, exactly when
      its count is 0; a mapped page counts its leaves and nothing else; a page
      with a writable counted leaf has that leaf as only holder. */
  lemma CountsExact(s: St, p: nat, k: C.Key)
    requires Settled(s) && p < |s.fr| && s.role[p] != Image
    ensures p in s.free <==> s.rc[p] == 0
    ensures forall i, j :: 0 <= i < j < |s.free| ==> s.free[i] != s.free[j]
    ensures C.Holds(Leaves(s), k, p) ==> s.rc[p] == |C.Holders(Leaves(s), p)|
    ensures C.Holds(Leaves(s), k, p) && Leaves(s)[k].fl.w ==> s.rc[p] == 1 && C.Sole(Leaves(s), k)
  {
    Unfold(s);
    assert CountOk(s, p);
    if i :| 0 <= i < |s.free| && s.free[i] == p {
      assert FreeSlot(s, i);
    }
    forall i, j | 0 <= i < j < |s.free|
      ensures s.free[i] != s.free[j]
    {
      assert FreeSlot(s, j);
    }
    if C.Holds(Leaves(s), k, p) {
      LeafFacts(s, k);
      assert QuietAt(s, k);
      forall j | Leaves(s)[k].fl.w && j in Leaves(s) && C.Holds(Leaves(s), j, p)
        ensures j == k
      {
        assert !C.Clash(Leaves(s), k, j);
      }
      SoleByCount(s, k);
    }
  }

  /** Tables are never shared: two entries of upper tables that link the same
      page are the same entry, and that link is all the page's count. */
  lemma LinkedOnce(s: St, q: nat, i: nat, q': nat, j: nat)
    requires Inv(s) && forall r | 0 <= r < |s.fr| :: s.dead[r] == FIRST
    requires q < |s.fr| && (s.role[q].Root? || s.role[q].Mid?) && i < ENTRIES && At(s.fr[q], i).v
    requires q' < |s.fr| && (s.role[q'].Root? || s.role[q'].Mid?) && j < ENTRIES && At(s.fr[q'], j).v
    requires At(s.fr[q], i).ppn == At(s.fr[q'], j).ppn
    ensures q == q' && i == j && At(s.fr[q], i).ppn < |s.fr| && s.rc[At(s.fr[q], i).ppn] == 1
  {
    Unfold(s);
    UpperLink(s, q, i);
    UpperLink(s, q', j);
    assert CountOk(s, At(s.fr[q], i).ppn);
    assert PageOk(s, q) && PageOk(s, q');
  }

  lemma UpperLink(s: St, q: nat, i: nat)
    requires Sized(s) && Tables(s) && forall r | 0 <= r < |s.fr| :: s.dead[r] == FIRST
    requires q < |s.fr| && (s.role[q].Root? || s.role[q].Mid?) && i < ENTRIES && At(s.fr[q], i).v
    ensures LinkOk(s, At(s.fr[q], i), if s.role[q].Root? then Mid(q, i) else Low(s.role[q].r, s.role[q].a, i))
  {
    assert PageOk(s, q);
  }

  lemma ConsistentShrink(leaves: map<C.Key, Pte>, k: C.Key)
    requires C.Consistent(leaves)
    ensures C.Consistent(leaves - {k})
  {
    forall i, j ensures !C.Clash(leaves - {k}, i, j) {
      assert !C.Clash(leaves, i, j);
    }
  }

  lemma ConsistentRebind(leaves: map<C.Key, Pte>, k: C.Key, e: Pte)
    requires C.Consistent(leaves)
    requires forall j | j in leaves && j != k && leaves[j].ppn == e.ppn ::
               !leaves[j].fl.w && !e.fl.w && leaves[j].fl.g == e.fl.g && (!e.fl.g ==> j.1 == k.1)
    ensures C.Consistent(leaves[k := e])
  {
    var now := leaves[k := e];
    forall i, j ensures !C.Clash(now, i, j) {
      assert !C.Clash(leaves, i, j);
    }
  }

  /** Memory `s'` is `s` after the flat machine took action `act`. (Folded, as
      the memory invariant is.) */
  ghost predicate Does(s: St, s': St, act: C.Action) {
    && Sized(s) && Sized(s')
    && forall open {:trigger Opened(s, open), Opened(s', open)} ::
         Opened(s, open) && Opened(s', open) ==> Acts(Abs(s), Abs(s'), act)
  }

  ghost predicate Acts(vm: C.Vm, vm': C.Vm, act: C.Action) {
    C.Inv(vm) && C.Enabled(vm, act) && vm' == C.Apply(vm, act)
  }

  /** A long predicate as a value, which keeps it folded in the contracts that
      carry it. */
  datatype Stage = OnTrack | Lost

  lemma DoesActs(s: St, s': St, act: C.Action)
    requires Does(s, s', act)
    ensures Acts(Abs(s), Abs(s'), act)
  {
    assert Opened(s, true) && Opened(s', true);
  }

  // ---------------------------------------------------------------------- vpage_unmmap

  /** (r, v) has a counted leaf and the level 0 table where it sits. */
  ghost predicate Counted(s: St, r: nat, v: Vpn) {
    && Settled(s) && (r, v) in Leaves(s) && !Leaves(s)[(r, v)].fl.g
    && CanPutLeaf(s, r, v, NO_PTE)
    && Leaves(s)[(r, v)].ppn < |s.fr| && s.role[Leaves(s)[(r, v)].ppn] == Data && s.rc[Leaves(s)[(r, v)].ppn] > 0
    && s.held[Leaves(s)[(r, v)].ppn] == 0
  }

  lemma CountedLeaf(s: St, r: nat, v: Vpn)
    requires Settled(s) && (r, v) in Leaves(s) && !Leaves(s)[(r, v)].fl.g
    ensures Counted(s, r, v)
  {
    Unfold(s);
    LeafFacts(s, (r, v));
    PathOk(s, r, v);
    assert QuietAt(s, (r, v));
    assert CountOk(s, Leaves(s)[(r, v)].ppn);
  }

  function UnmapSt(s: St, r: nat, v: Vpn, p: nat): St
    requires Sized(s) && r < |s.fr| && InRange(v) && p < |s.fr| && s.rc[p] > 0
    requires LowPage(s, r, v.i2, v.i1).Some? && LowPage(s, r, v.i2, v.i1).value < |s.fr|
  {
    PutSt(Rebind(s, r, v, NO_PTE), p)
  }

  lemma UnmapKeepsInv(s: St, r: nat, v: Vpn)
    requires Counted(s, r, v)
    ensures var s' := UnmapSt(s, r, v, Leaves(s)[(r, v)].ppn);
            Inv(s') && Leaves(s') == Leaves(s) - {(r, v)}
  {
    Unfold(s);
    var p := Leaves(s)[(r, v)].ppn;
    ConsistentShrink(Leaves(s), (r, v));
    RebindOk(s, r, v, NO_PTE);
    assert Get(Leaves(s), (r, v)) == Leaf(s, (r, v));
    PutOk(Rebind(s, r, v, NO_PTE), p);
  }

  /** Page `p` has lost a leaf, and is free again if that was its last. */
  ghost predicate PageLost(s: St, s': St, p: nat, last: bool) {
    && Sized(s) && Sized(s') && |s'.fr| == |s.fr| && s'.held == s.held && s'.dead == s.dead
    && p < |s.fr| && (last ==> s.role[p] == Data)
    && s'.role == (if last then s.role[p := FreePage] else s.role)
    && (forall q | 0 <= q < |s.fr| && s.role[q] == Image :: s'.rc[q] == s.rc[q])
    && forall x :: DataAt(s', x) == if x == p && last then None else DataAt(s, x)
  }

  lemma UnmapHeld(s: St, r: nat, v: Vpn)
    requires Counted(s, r, v)
    ensures var p := Leaves(s)[(r, v)].ppn;
            var s' := UnmapSt(s, r, v, p);
            && s'.held == s.held && s'.dead == s.dead && |s'.fr| == |s.fr| && s'.rc == s.rc[p := s.rc[p] - 1]
            && s'.role == (if s.rc[p] == 1 then s.role[p := FreePage] else s.role)
  {
    RebindFields(s, r, v, NO_PTE);
    assert Get(Leaves(s), (r, v)) == Leaf(s, (r, v));
    GivePut(Rebind(s, r, v, NO_PTE), s.held, Leaves(s)[(r, v)]);
  }

  lemma GivePut(m: St, held: seq<nat>, e: Pte)
    requires Sized(m) && |held| == |m.fr| && !e.fl.g && e.ppn < |m.fr| && m.rc[e.ppn] > 0
    requires m.held == Take(Give(held, Some(e)), NO_PTE)
    ensures PutSt(m, e.ppn).held == held
  {
    assert m.held[e.ppn := held[e.ppn]] == held;
  }

  lemma UnmapContent(s: St, r: nat, v: Vpn, x: nat)
    requires Counted(s, r, v)
    ensures var p := Leaves(s)[(r, v)].ppn;
            Sized(UnmapSt(s, r, v, p)) &&
            DataAt(UnmapSt(s, r, v, p), x) == if x == p && s.rc[p] == 1 then None else DataAt(s, x)
  {
    RebindFields(s, r, v, NO_PTE);
    var p, m := Leaves(s)[(r, v)].ppn, Rebind(s, r, v, NO_PTE);
    PutData(m, p);
    assert DataAt(m, x) == DataAt(s, x);
  }

  lemma UnmapFields(s: St, r: nat, v: Vpn)
    requires Counted(s, r, v)
    ensures var p := Leaves(s)[(r, v)].ppn; PageLost(s, UnmapSt(s, r, v, p), p, s.rc[p] == 1)
  {
    var p := Leaves(s)[(r, v)].ppn;
    UnmapHeld(s, r, v);
    forall x ensures DataAt(UnmapSt(s, r, v, p), x) == if x == p && s.rc[p] == 1 then None else DataAt(s, x) {
      UnmapContent(s, r, v, x);
    }
    LostIs(s, UnmapSt(s, r, v, p), p);
  }

  lemma LostIs(s: St, s': St, p: nat)
    requires Sized(s) && Sized(s') && |s'.fr| == |s.fr| && s'.held == s.held && s'.dead == s.dead
    requires p < |s.fr| && s.role[p] == Data && s.rc[p] > 0 && s'.rc == s.rc[p := s.rc[p] - 1]
    requires s'.role == if s.rc[p] == 1 then s.role[p := FreePage] else s.role
    requires forall x :: DataAt(s', x) == if x == p && s.rc[p] == 1 then None else DataAt(s, x)
    ensures PageLost(s, s', p, s.rc[p] == 1)
  {
  }

  lemma LostSettled(s: St, s': St, k: C.Key, last: bool)
    requires Settled(s) && Inv(s') && k in Leaves(s) && Leaves(s') == Leaves(s) - {k}
    requires PageLost(s, s', Leaves(s)[k].ppn, last)
    ensures Settled(s')
  {
    SettledQuiet(s);
    QuietDropped(Leaves(s), Leaves(s'), s.held, k);
    QuietSettled(s', Leaves(s'), s.held);
  }

  lemma UnmapDoes(s: St, r: nat, v: Vpn)
    requires Counted(s, r, v)
    ensures var s' := UnmapSt(s, r, v, Leaves(s)[(r, v)].ppn);
            Settled(s') && Does(s, s', C.Unmap((r, v)))
  {
    AbsInv(s);
    UnmapKeepsInv(s, r, v);
    UnmapFields(s, r, v);
    SoleByCount(s, (r, v));
    var s', last := UnmapSt(s, r, v, Leaves(s)[(r, v)].ppn), s.rc[Leaves(s)[(r, v)].ppn] == 1;
    LostSettled(s, s', (r, v), last);
    LostDoes(s, s', (r, v), last);
  }

  lemma LostDoes(s: St, s': St, k: C.Key, last: bool)
    requires Sized(s) && Sized(s') && C.Inv(Abs(s)) && k in Leaves(s) && !Leaves(s)[k].fl.g
    requires Leaves(s') == Leaves(s) - {k}
    requires PageLost(s, s', Leaves(s)[k].ppn, last) && (last <==> C.Sole(Leaves(s), k))
    ensures Does(s, s', C.Unmap(k))
  {
    LostRoots(s, s', Leaves(s)[k].ppn, last);
    UnmapAbs(s, s', k, last);
  }

  lemma LostRoots(s: St, s': St, p: nat, last: bool)
    requires PageLost(s, s', p, last)
    ensures forall r | 0 <= r < |s.fr| :: s.role[r] == Root <==> s'.role[r] == Root
  {
  }

  lemma LastData(s: St, s': St, p: nat)
    requires Sized(s) && Sized(s')
    requires forall x :: DataAt(s', x) == if x == p then None else DataAt(s, x)
    ensures forall x :: Get(Abs(s).data - {p}, x) == DataAt(s', x)
  {
    forall x ensures Get(Abs(s).data - {p}, x) == DataAt(s', x) {
      assert Get(Abs(s).data, x) == DataAt(s, x);
    }
  }

  /** Dropping one counted leaf, and its page if it was the last, is Unmap. */
  lemma UnmapAbs(s: St, s': St, k: C.Key, last: bool)
    requires Sized(s) && Sized(s') && |s'.fr| == |s.fr| && C.Inv(Abs(s))
    requires k in Leaves(s) && !Leaves(s)[k].fl.g && Leaves(s') == Leaves(s) - {k}
    requires forall r | 0 <= r < |s.fr| :: s.role[r] == Root <==> s'.role[r] == Root
    requires forall x :: DataAt(s', x) == if x == Leaves(s)[k].ppn && last then None else DataAt(s, x)
    requires last <==> C.Sole(Leaves(s), k)
    ensures Does(s, s', C.Unmap(k))
  {
    var vm := Abs(s);
    var data := if last then vm.data - {vm.leaves[k].ppn} else vm.data;
    C.UnmapIs(vm, k, last, data);
    UnmapData(s, s', k, last, data);
  }

  lemma UnmapData(s: St, s': St, k: C.Key, last: bool, data: map<nat, Page>)
    requires Sized(s) && Sized(s') && |s'.fr| == |s.fr|
    requires k in Leaves(s) && Leaves(s') == Leaves(s) - {k}
    requires forall r | 0 <= r < |s.fr| :: s.role[r] == Root <==> s'.role[r] == Root
    requires forall x :: DataAt(s', x) == if x == Leaves(s)[k].ppn && last then None else DataAt(s, x)
    requires data == if last then Abs(s).data - {Leaves(s)[k].ppn} else Abs(s).data
    ensures Abs(s') == C.Vm(Abs(s).roots, Leaves(s) - {k}, data)
  {
    if last {
      LastData(s, s', Leaves(s)[k].ppn);
    }
    AbsIs(s', C.Vm(Abs(s).roots, Leaves(s) - {k}, data));
  }

  /** vpage_unmmap: the leaf goes, with its reference on the page. */
  method VpageUnmap(m: Memory, root: nat, v: Vpn) returns (ok: bool)
    requires Settled(m.S()) && Tree(m.S(), root) && InRange(v)
    requires (root, v) in Leaves(m.S()) ==> !Leaves(m.S())[(root, v)].fl.g
    modifies m
    ensures ok <==> (root, v) in Leaves(old(m.S()))
    ensures !ok ==> m.S() == old(m.S())
    ensures ok ==> Settled(m.S()) && Tree(m.S(), root) && m.held == old(m.held)
    ensures ok ==> Does(old(m.S()), m.S(), C.Unmap((root, v))) && Leaves(m.S()) == Leaves(old(m.S())) - {(root, v)}
    ensures ok ==> exists last :: PageLost(old(m.S()), m.S(), Leaves(old(m.S()))[(root, v)].ppn, last)
  {
    ghost var s := m.S();
    LeafFacts(s, (root, v));
    var leaf := WalkLeaf(m, root, v);
    if leaf.None? {
      return false;
    }
    CountedLeaf(s, root, v);
    UnmapDoes(s, root, v);
    UnmapKeepsInv(s, root, v);
    UnmapFields(s, root, v);
    LowFrame(s, leaf.value.0);
    ClearAndPut(m, leaf.value.0, leaf.value.1, root, v);
    return true;
  }

  lemma LowFrame(s: St, p: nat)
    requires Inv(s) && p < |s.fr| && s.role[p].Low?
    ensures IsTable(s.fr[p])
  {
    Unfold(s);
    assert PageOk(s, p);
  }

  /** The page is put before its entry is cleared. */
  method ClearAndPut(m: Memory, table: nat, i: nat, ghost root: nat, ghost v: Vpn)
    requires Sized(m.S()) && root < |m.fr| && InRange(v) && table < |m.fr| && IsTable(m.fr[table])
    requires LowPage(m.S(), root, v.i2, v.i1) == Some(table) && i == v.i0
    requires var page := At(m.fr[table], i).ppn; page < |m.fr| && page != table && m.rc[page] > 0
    modifies m
    ensures m.S() == UnmapSt(old(m.S()), root, v, At(old(m.fr)[table], i).ppn)
  {
    var page := AsTable(m.fr[table])[i].ppn;
    ghost var t := UnmapSt(m.S(), root, v, page);
    m.PagePut(page);
    m.fr := m.fr[table := SetEntry(m.fr[table], i, NO_PTE)];
    m.held := t.held;
    assert m.fr == t.fr;
  }

  // ------------------------------------------------------------------ vpage_handle_cow

  ghost predicate CowLeaf(s: St, r: nat, v: Vpn) {
    Counted(s, r, v) && Leaves(s)[(r, v)].fl.cow && SaneFlags(Leaves(s)[(r, v)].fl)
  }

  /** The last holder of a page gets it back writable, in place. */
  function ClaimSt(s: St, r: nat, v: Vpn, e: Pte): St
    requires CanPutLeaf(s, r, v, Unprotect(e, e.ppn))
  {
    Rebind(s, r, v, Unprotect(e, e.ppn))
  }

  lemma OthersShare(leaves: map<C.Key, Pte>, k: C.Key)
    requires C.Consistent(leaves) && k in leaves && C.Sole(leaves, k) && !leaves[k].fl.g
    ensures forall j | j in leaves && j != k :: leaves[j].ppn != leaves[k].ppn
  {
    forall j | j in leaves && j != k ensures leaves[j].ppn != leaves[k].ppn {
      assert !C.Clash(leaves, k, j);
      assert leaves[j].ppn == leaves[k].ppn ==> C.Holds(leaves, j, leaves[k].ppn);
    }
  }

  lemma ClaimKeepsInv(s: St, r: nat, v: Vpn)
    requires CowLeaf(s, r, v) && s.rc[Leaves(s)[(r, v)].ppn] == 1
    ensures var e := Leaves(s)[(r, v)];
            && CanPutLeaf(s, r, v, Unprotect(e, e.ppn))
            && var s' := ClaimSt(s, r, v, e);
            && Inv(s') && Leaves(s') == Leaves(s)[(r, v) := Unprotect(e, e.ppn)]
            && s'.held == s.held && s'.role == s.role && s'.dead == s.dead && |s'.fr| == |s.fr|
            && forall x :: DataAt(s', x) == DataAt(s, x)
  {
    Unfold(s);
    var e := Leaves(s)[(r, v)];
    SoleByCount(s, (r, v));
    OthersShare(Leaves(s), (r, v));
    ConsistentRebind(Leaves(s), (r, v), Unprotect(e, e.ppn));
    assert Get(Leaves(s), (r, v)) == Leaf(s, (r, v));
    LeafFacts(s, (r, v));
    RebindOk(s, r, v, Unprotect(e, e.ppn));
    RebindFields(s, r, v, Unprotect(e, e.ppn));
    assert ClaimSt(s, r, v, e).held == s.held;
  }

  lemma ClaimData(s: St, s': St, k: C.Key)
    requires Sized(s) && Sized(s') && |s'.fr| == |s.fr| && s'.role == s.role && k in Leaves(s)
    requires Leaves(s') == Leaves(s)[k := Unprotect(Leaves(s)[k], Leaves(s)[k].ppn)]
    requires forall x :: DataAt(s', x) == DataAt(s, x)
    ensures Abs(s') == C.Vm(Abs(s).roots, Leaves(s'), Abs(s).data)
  {
    AbsIs(s', C.Vm(Abs(s).roots, Leaves(s'), Abs(s).data));
  }

  lemma ClaimDoes(s: St, s': St, k: C.Key, q: nat)
    requires Settled(s) && k in Leaves(s) && Leaves(s)[k].fl.cow && C.Sole(Leaves(s), k)
    requires Sized(s') && |s'.fr| == |s.fr| && s'.role == s.role
    requires Leaves(s') == Leaves(s)[k := Unprotect(Leaves(s)[k], Leaves(s)[k].ppn)]
    requires forall x :: DataAt(s', x) == DataAt(s, x)
    ensures Does(s, s', C.Fault(k, q))
  {
    AbsInv(s);
    C.ClaimIs(Abs(s), k, q);
    ClaimData(s, s', k);
  }

  lemma ClaimSettled(s: St, s': St, k: C.Key)
    requires Settled(s) && k in Leaves(s) && Inv(s') && |s'.fr| == |s.fr| && s'.held == s.held
    requires Leaves(s') == Leaves(s)[k := Unprotect(Leaves(s)[k], Leaves(s)[k].ppn)]
    ensures Settled(s')
  {
    SettledRebound(s, s', k, Unprotect(Leaves(s)[k], Leaves(s)[k].ppn));
  }

  /** Only page `q` changed its content, to `c`. */
  ghost predicate DataPut(s: St, s': St, q: nat, c: Page) {
    && Sized(s) && Sized(s') && |s'.fr| == |s.fr|
    && forall x :: DataAt(s', x) == if x == q then Some(c) else DataAt(s, x)
  }

  /** `t` is `s` with the page `q` fresh from the allocator and filled. */
  ghost predicate Filled(s: St, t: St, q: nat) {
    && Sized(s) && Inv(t) && Leaves(t) == Leaves(s) && |t.fr| == |s.fr| && q < |s.fr| && s.role[q] == FreePage
    && t.dead == s.dead && t.role == s.role[q := Data] && t.held == s.held[q := 1] && t.rc == s.rc[q := 1]
    && s.held[q] == 0
  }

  lemma FillFresh(s: St, q: nat, c: Page)
    requires Inv(s) && s.free != [] && q == s.free[0]
    ensures q < |s.fr| && C.Unmapped(Leaves(s), q) && Filled(s, FillSt(AllocSt(s), q, c), q)
  {
    AllocOk(s);
    Unfold(s);
    assert CountOk(s, q);
    FillOk(AllocSt(s), q, c);
  }

  lemma FillFreshData(s: St, q: nat, c: Page)
    requires Sized(s) && s.free != [] && q == s.free[0] < |s.fr|
    ensures DataPut(s, FillSt(AllocSt(s), q, c), q, c)
  {
  }

  /** The leaf (r, v) can be moved to the fresh page. */
  lemma FilledCanPut(s: St, t: St, r: nat, v: Vpn, q: nat)
    requires CowLeaf(s, r, v) && Filled(s, t, q)
    ensures CanPutLeaf(t, r, v, Unprotect(Leaves(s)[(r, v)], q))
  {
    CanMove(t, (r, v), Leaves(s)[(r, v)], q);
  }

  lemma CanMove(t: St, k: C.Key, e: Pte, q: nat)
    requires Inv(t) && Get(Leaves(t), k) == Some(e) && !e.fl.g && e.fl.cow && q < |t.fr| && t.role[q] == Data
    ensures CanPutLeaf(t, k.0, k.1, Unprotect(e, q))
  {
    LeafFacts(t, k);
    CanPutThere(t, k.0, k.1, Unprotect(e, q));
  }

  lemma HasLeaf(s: St, k: C.Key)
    requires Sized(s) && k in Leaves(s)
    ensures Leaf(s, k).Some? && k.0 < |s.fr| && InRange(k.1)
  {
    assert Get(Leaves(s), k) == Leaf(s, k);
  }

  lemma FilledPath(s: St, t: St, r: nat, v: Vpn, q: nat)
    requires CowLeaf(s, r, v) && Filled(s, t, q)
    ensures LowPage(t, r, v.i2, v.i1) == LowPage(s, r, v.i2, v.i1)
  {
    HasLeaf(s, (r, v));
    HasLeaf(t, (r, v));
    SamePath(s, t, r, v, q);
  }

  /** Where there is a leaf another one can be put. */
  lemma CanPutThere(s: St, r: nat, v: Vpn, e: Pte)
    requires Inv(s) && Leaf(s, (r, v)).Some? && (e.v ==> LeafOk(s, e))
    ensures CanPutLeaf(s, r, v, e)
  {
    Unfold(s);
    PathOk(s, r, v);
  }

  /** Both states have the leaf, so its table has the same role in both. */
  lemma SamePath(s: St, t: St, r: nat, v: Vpn, q: nat)
    requires Inv(s) && Inv(t) && |t.fr| == |s.fr| && r < |s.fr| && InRange(v)
    requires Leaf(s, (r, v)).Some? && Leaf(t, (r, v)).Some?
    requires q < |s.fr| && s.role[q] == FreePage && t.role == s.role[q := Data]
    ensures LowPage(t, r, v.i2, v.i1) == LowPage(s, r, v.i2, v.i1)
  {
    Unfold(s);
    Unfold(t);
    PathOk(s, r, v);
    PathOk(t, r, v);
    assert PageOk(t, LowPage(s, r, v.i2, v.i1).value);
  }

  lemma CopyRebound(s: St, t: St, r: nat, v: Vpn, e: Pte, q: nat)
    requires CowLeaf(s, r, v) && e == Leaves(s)[(r, v)] && Filled(s, t, q) && C.Unmapped(Leaves(s), q)
    requires CanPutLeaf(t, r, v, Unprotect(e, q))
    ensures Inv(Rebind(t, r, v, Unprotect(e, q)))
    ensures Leaves(Rebind(t, r, v, Unprotect(e, q))) == Leaves(s)[(r, v) := Unprotect(e, q)]
  {
    assert Get(Leaves(t), (r, v)) == Leaf(t, (r, v));
    Unfold(t);
    ConsistentRebind(Leaves(s), (r, v), Unprotect(e, q));
    RebindOk(t, r, v, Unprotect(e, q));
  }

  lemma HeldMoves(held: seq<nat>, e: Pte, q: nat)
    requires !e.fl.g && e.v && e.ppn < |held| && q < |held| && q != e.ppn && held[q] == 0 && held[e.ppn] == 0
    ensures Take(Give(held[q := 1], Some(e)), Unprotect(e, q)) == held[e.ppn := 1]
  {
  }

  /** After the leaf moved to `q`, its old page `p` loses one reference. */
  lemma CopyPut(s: St, s3: St, p: nat, q: nat, k: C.Key)
    requires Settled(s) && k in Leaves(s) && p == Leaves(s)[k].ppn < |s.fr| && s.role[p] == Data && p != q
    requires q < |s.fr| && s.held[q] == 0 && s.held[p] == 0
    requires Inv(s3) && |s3.fr| == |s.fr| && Leaves(s3) == Leaves(s)[k := Unprotect(Leaves(s)[k], q)]
    requires s3.held == s.held[p := 1] && s3.role == s.role[q := Data] && s3.rc[p] > 1
    ensures Settled(PutSt(s3, p)) && Leaves(PutSt(s3, p)) == Leaves(s3)
    ensures PutSt(s3, p).held == s.held
  {
    PutOk(s3, p);
    var s' := PutSt(s3, p);
    assert s'.held == s.held;
    forall j ensures QuietAt(s', j) {
      assert QuietAt(s, j);
    }
  }

  /** Moving one leaf to a copy of its page is the slow Fault. */
  lemma CopyAbs(s: St, s': St, k: C.Key, q: nat)
    requires Sized(s) && Sized(s') && |s'.fr| == |s.fr| && C.Inv(Abs(s))
    requires k in Leaves(s) && Leaves(s)[k].fl.cow && !C.Sole(Leaves(s), k) && Leaves(s)[k].ppn < |s.fr|
    requires Leaves(s') == Leaves(s)[k := Unprotect(Leaves(s)[k], q)]
    requires q < |s.fr| && s.role[q] == FreePage && s'.role == s.role[q := Data]
    requires DataPut(s, s', q, Content(s.fr[Leaves(s)[k].ppn]))
    ensures Does(s, s', C.Fault(k, q))
  {
    CopyReads(s, k, q);
    CopyData(s, s', q, Abs(s).data[Leaves(s)[k].ppn]);
    CopyActs(Abs(s), Abs(s'), k, q);
  }

  lemma CopyReads(s: St, k: C.Key, q: nat)
    requires Sized(s) && C.Inv(Abs(s)) && k in Leaves(s) && Leaves(s)[k].ppn < |s.fr| && q < |s.fr|
    requires s.role[q] == FreePage
    ensures Leaves(s)[k].ppn in Abs(s).data && Abs(s).data[Leaves(s)[k].ppn] == Content(s.fr[Leaves(s)[k].ppn])
    ensures q !in Abs(s).data && q !in Abs(s).roots
  {
    var vm, p := Abs(s), Leaves(s)[k].ppn;
    assert Get(vm.data, q) == DataAt(s, q) && Get(vm.data, p) == DataAt(s, p);
  }

  lemma CopyActs(vm: C.Vm, vm': C.Vm, k: C.Key, q: nat)
    requires C.Inv(vm) && k in vm.leaves && vm.leaves[k].fl.cow && !C.Sole(vm.leaves, k) && vm.leaves[k].ppn in vm.data
    requires q !in vm.data && q !in vm.roots
    requires vm' == C.Vm(vm.roots, vm.leaves[k := Unprotect(vm.leaves[k], q)], vm.data[q := vm.data[vm.leaves[k].ppn]])
    ensures Acts(vm, vm', C.Fault(k, q))
  {
    C.CopyIs(vm, k, q);
  }

  lemma CopyData(s: St, s': St, q: nat, c: Page)
    requires q < |s.fr| && Sized(s) && s.role[q] == FreePage && Sized(s') && s'.role == s.role[q := Data]
    requires DataPut(s, s', q, c)
    ensures Abs(s') == C.Vm(Abs(s).roots, Leaves(s'), Abs(s).data[q := c])
  {
    forall x ensures Get(Abs(s).data[q := c], x) == DataAt(s', x) {
      assert Get(Abs(s).data, x) == DataAt(s, x);
    }
    AbsIs(s', C.Vm(Abs(s).roots, Leaves(s'), Abs(s).data[q := c]));
  }

  datatype Outcome = Done | EFAULT | ENOMEM

  /** A fault on page `p` can be served: the space is its only user, or there is
      a page for the copy. */
  predicate CanClaim(s: St, p: nat) {
    (p < |s.rc| && s.rc[p] == 1) || s.free != []
  }

  /** vpage_handle_cow: in every case but the errors it is the Fault action. */
  method HandleCow(m: Memory, root: nat, v: Vpn) returns (res: Outcome)
    requires Settled(m.S()) && Tree(m.S(), root) && InRange(v)
    modifies m
    ensures res == EFAULT <==> !((root, v) in Leaves(old(m.S())) && Leaves(old(m.S()))[(root, v)].fl.cow)
    ensures res != Done ==> m.S() == old(m.S())
    ensures res == ENOMEM <==>
              var l := Get(Leaves(old(m.S())), (root, v));
              l.Some? && l.value.fl.cow && !CanClaim(old(m.S()), l.value.ppn)
    ensures res == Done ==> Settled(m.S()) && Tree(m.S(), root) && m.held == old(m.held)
    ensures res == Done ==>
              Does(old(m.S()), m.S(), C.Fault((root, v), if old(m.free) == [] then 0 else old(m.free)[0]))
    ensures res == Done ==> Granted(old(m.S()), m.S(), (root, v))
  {
    ghost var s := m.S();
    LeafFacts(s, (root, v));
    var leaf := WalkLeaf(m, root, v);
    if leaf.None? {
      return EFAULT;
    }
    var table, i := leaf.value.0, leaf.value.1;
    var e := AtLeaf(m, leaf.value);
    if !e.fl.cow {
      return EFAULT;
    }
    CountedLeaf(s, root, v);
    if m.rc[e.ppn] == 1 {
      ClaimPage(m, root, v, table, i, e);
      FaultGranted(s, m.S(), (root, v), if s.free == [] then 0 else s.free[0]);
      return Done;
    }
    res := CopyPage(m, root, v, table, i, e);
    if res == Done {
      FaultGranted(s, m.S(), (root, v), s.free[0]);
    }
  }

  /** The space may write at `k` now, on a page that is its alone and has the
      bytes the shared one has; no other leaf changed. */
  ghost predicate Granted(s: St, s': St, k: C.Key) {
    && Sized(s) && Sized(s') && k in Leaves(s) && k in Leaves(s')
    && Leaves(s')[k].fl == Leaves(s)[k].fl.(w := true, cow := false)
    && C.Sole(Leaves(s'), k) && (forall j | j != k :: Get(Leaves(s'), j) == Get(Leaves(s), j))
    && DataAt(s', Leaves(s')[k].ppn) == DataAt(s, Leaves(s)[k].ppn)
  }

  lemma FaultGranted(s: St, s': St, k: C.Key, q: nat)
    requires Inv(s) && Inv(s') && Does(s, s', C.Fault(k, q))
    ensures Granted(s, s', k)
  {
    DoesActs(s, s', C.Fault(k, q));
    FaultActs(Abs(s), Abs(s'), k, q);
    LeafFacts(s, k);
    LeafFacts(s', k);
    assert Get(Abs(s).data, Leaves(s)[k].ppn) == DataAt(s, Leaves(s)[k].ppn);
    assert Get(Abs(s').data, Leaves(s')[k].ppn) == DataAt(s', Leaves(s')[k].ppn);
  }

  lemma FaultActs(vm: C.Vm, vm': C.Vm, k: C.Key, q: nat)
    requires Acts(vm, vm', C.Fault(k, q))
    ensures k in vm.leaves && k in vm'.leaves && vm'.leaves[k].fl == vm.leaves[k].fl.(w := true, cow := false)
    ensures (forall j | j != k :: Get(vm'.leaves, j) == Get(vm.leaves, j)) && C.Sole(vm'.leaves, k)
    ensures Get(vm'.data, vm'.leaves[k].ppn) == Get(vm.data, vm.leaves[k].ppn)
  {
    forall j | j in vm'.leaves && j != k ensures !C.Holds(vm'.leaves, j, vm'.leaves[k].ppn) {
      assert vm'.leaves[j] == vm.leaves[j] && vm.leaves[j].ppn in vm.data;
    }
  }

  /** The fast path of vpage_handle_cow. */
  method ClaimPage(m: Memory, root: nat, v: Vpn, table: nat, i: nat, e: Pte)
    requires Tree(m.S(), root) && CowLeaf(m.S(), root, v) && e == Leaves(m.S())[(root, v)] && m.rc[e.ppn] == 1
    requires LowPage(m.S(), root, v.i2, v.i1) == Some(table) && i == v.i0
    modifies m
    ensures Settled(m.S()) && Tree(m.S(), root) && m.held == old(m.held)
    ensures forall q :: Does(old(m.S()), m.S(), C.Fault((root, v), q))
  {
    ghost var s := m.S();
    ClaimKeepsInv(s, root, v);
    WriteLeaf(m, table, i, Unprotect(e, e.ppn), root, v);
    ghost var s' := m.S();
    ClaimSettled(s, s', (root, v));
    SoleByCount(s, (root, v));
    forall q ensures Does(s, s', C.Fault((root, v), q)) {
      ClaimDoes(s, s', (root, v), q);
    }
  }

  /** The leaf (r, v) moves from its page to the page `q`. */
  function MoveSt(t: St, r: nat, v: Vpn, e: Pte, q: nat): St
    requires CanPutLeaf(t, r, v, Unprotect(e, q)) && e.ppn < |t.fr| && t.rc[e.ppn] > 0
  {
    PutSt(Rebind(t, r, v, Unprotect(e, q)), e.ppn)
  }

  lemma MoveKeeps(s: St, t: St, r: nat, v: Vpn, e: Pte, q: nat)
    requires CowLeaf(s, r, v) && e == Leaves(s)[(r, v)] && s.rc[e.ppn] > 1 && s.dead[r] == FIRST
    requires Filled(s, t, q) && C.Unmapped(Leaves(s), q)
    ensures CanPutLeaf(t, r, v, Unprotect(e, q)) && t.rc[e.ppn] > 0
    ensures var s' := MoveSt(t, r, v, e, q);
            && Settled(s') && Leaves(s') == Leaves(s)[(r, v) := Unprotect(e, q)]
            && s'.held == s.held && s'.role == s.role[q := Data] && s'.dead == s.dead && |s'.fr| == |s.fr|
  {
    FilledCanPut(s, t, r, v, q);
    CopyRebound(s, t, r, v, e, q);
    LeafFacts(t, (r, v));
    HeldMoves(s.held, e, q);
    RebindFields(t, r, v, Unprotect(e, q));
    CopyPut(s, Rebind(t, r, v, Unprotect(e, q)), e.ppn, q, (r, v));
  }

  lemma MoveData(s: St, t: St, r: nat, v: Vpn, e: Pte, q: nat, c: Page)
    requires DataPut(s, t, q, c) && CanPutLeaf(t, r, v, Unprotect(e, q)) && e.ppn < |t.fr| && t.rc[e.ppn] > 1
    ensures DataPut(s, MoveSt(t, r, v, e, q), q, c)
  {
    RebindFields(t, r, v, Unprotect(e, q));
    PutData(Rebind(t, r, v, Unprotect(e, q)), e.ppn);
  }

  /** page_alloc and page_copy: a fresh page with the content of page `p`. */
  method AllocCopy(m: Memory, p: nat) returns (page: Option<nat>)
    requires Inv(m.S()) && p < |m.fr| && m.role[p] == Data
    modifies m
    ensures page.None? <==> old(m.free) == []
    ensures page.None? ==> m.S() == old(m.S())
    ensures page.Some? ==>
              && page.value == old(m.free)[0] < |m.fr| == |old(m.fr)| && C.Unmapped(Leaves(old(m.S())), page.value)
              && m.S() == FillSt(AllocSt(old(m.S())), page.value, Content(old(m.fr)[p]))
              && Filled(old(m.S()), m.S(), page.value)
  {
    ghost var s := m.S();
    page := m.PageAlloc();
    if page.Some? {
      FillFresh(s, page.value, Content(s.fr[p]));
      Typed(m.S(), p);
      m.fr := m.fr[page.value := Bytes(AsBytes(m.fr[p]))];
    }
  }

  /** The slow path of vpage_handle_cow. */
  method CopyPage(m: Memory, root: nat, v: Vpn, table: nat, i: nat, e: Pte) returns (res: Outcome)
    requires Tree(m.S(), root) && CowLeaf(m.S(), root, v) && e == Leaves(m.S())[(root, v)] && m.rc[e.ppn] > 1
    requires LowPage(m.S(), root, v.i2, v.i1) == Some(table) && i == v.i0
    modifies m
    ensures res != EFAULT && (res == ENOMEM <==> old(m.free) == [])
    ensures res == ENOMEM ==> m.S() == old(m.S())
    ensures res == Done ==> Settled(m.S()) && Tree(m.S(), root) && m.held == old(m.held)
    ensures res == Done ==> Does(old(m.S()), m.S(), C.Fault((root, v), old(m.free)[0]))
  {
    ghost var s := m.S();
    var page := AllocCopy(m, e.ppn);
    if page.None? {
      return ENOMEM;
    }
    var q := page.value;
    ghost var t := m.S();
    FilledCanPut(s, t, root, v, q);
    FilledPath(s, t, root, v, q);
    MoveKeeps(s, t, root, v, e, q);
    WriteLeaf(m, table, i, Unprotect(e, q), root, v);
    m.PagePut(e.ppn);
    MovedDoes(s, t, m.S(), root, v, e, q);
    return Done;
  }

  lemma MovedDoes(s: St, t: St, s': St, r: nat, v: Vpn, e: Pte, q: nat)
    requires CowLeaf(s, r, v) && e == Leaves(s)[(r, v)] && s.rc[e.ppn] > 1 && s.dead[r] == FIRST
    requires s.free != [] && q == s.free[0] < |s.fr|
    requires t == FillSt(AllocSt(s), q, Content(s.fr[e.ppn])) && Filled(s, t, q) && C.Unmapped(Leaves(s), q)
    requires CanPutLeaf(t, r, v, Unprotect(e, q)) && t.rc[e.ppn] > 0 && s' == MoveSt(t, r, v, e, q)
    ensures Does(s, s', C.Fault((r, v), q))
  {
    var c := Content(s.fr[e.ppn]);
    FillFreshData(s, q, c);
    MoveKeeps(s, t, r, v, e, q);
    MoveData(s, t, r, v, e, q, c);
    AbsInv(s);
    SoleByCount(s, (r, v));
    CopyAbs(s, s', (r, v), q);
  }

  lemma Typed(s: St, p: nat)
    requires Inv(s) && p < |s.fr| && s.role[p] == Data
    ensures s.fr[p].Zeroed? || s.fr[p].Bytes?
  {
    Unfold(s);
    assert PageOk(s, p);
  }

  // -------------------------------------------------- vpage_copyin and vpage_copyout

  /** vpage_copyin: a user page must be readable, and its bytes come back. */
  method CopyIn(m: Memory, root: nat, v: Vpn, off: nat, count: nat) returns (bytes: Option<seq<Byte>>)
    requires Settled(m.S()) && Tree(m.S(), root) && InRange(v) && off + count <= PAGE_SIZE
    ensures bytes.Some? <==> var l := Get(Leaves(m.S()), (root, v)); l.Some? && l.value.fl.u && l.value.fl.r
    ensures bytes.Some? ==>
              && DataAt(m.S(), Leaves(m.S())[(root, v)].ppn).Some?
              && bytes.value == DataAt(m.S(), Leaves(m.S())[(root, v)].ppn).value[off..off + count]
  {
    LeafFacts(m.S(), (root, v));
    var leaf := WalkLeaf(m, root, v);
    if leaf.None? {
      return None;
    }
    Unfold(m.S());
    assert PageOk(m.S(), leaf.value.0);
    var e := AsTable(m.fr[leaf.value.0])[leaf.value.1];
    if !(e.v && e.fl.u && e.fl.r) {
      return None;
    }
    assert PageOk(m.S(), e.ppn);
    return Some(AsBytes(m.fr[e.ppn])[off..off + count]);
  }

  lemma StoreSettled(s: St, p: nat, c: Page)
    requires Settled(s) && p < |s.fr| && s.role[p] == Data
    ensures Settled(FillSt(s, p, c)) && Leaves(FillSt(s, p, c)) == Leaves(s)
  {
    FillOk(s, p, c);
    QuietStays(s, FillSt(s, p, c));
  }

  lemma StoreDoes(s: St, k: C.Key, off: nat, bs: seq<Byte>, q: nat)
    requires Settled(s) && k in Leaves(s) && Leaves(s)[k].fl.w && off + |bs| <= PAGE_SIZE
    requires Leaves(s)[k].ppn < |s.fr| && s.role[Leaves(s)[k].ppn] == Data
    ensures var p := Leaves(s)[k].ppn;
            Does(s, FillSt(s, p, Overwrite(Content(s.fr[p]), off, bs)), C.Store(k, off, bs, q))
  {
    var p := Leaves(s)[k].ppn;
    var c := Overwrite(Content(s.fr[p]), off, bs);
    var s' := FillSt(s, p, c);
    StoreSettled(s, p, c);
    AbsInv(s);
    C.WriteIs(Abs(s), k, off, bs, q);
    assert Get(Abs(s).data, p) == DataAt(s, p);
    StoreData(s, p, c);
  }

  lemma StoreData(s: St, p: nat, c: Page)
    requires Sized(s) && p < |s.fr| && s.role[p] == Data && Leaves(FillSt(s, p, c)) == Leaves(s)
    ensures Abs(FillSt(s, p, c)) == C.Vm(Abs(s).roots, Leaves(s), Abs(s).data[p := c])
  {
    var s' := FillSt(s, p, c);
    forall x ensures Get(Abs(s).data[p := c], x) == DataAt(s', x) {
      assert Get(Abs(s).data, x) == DataAt(s, x);
    }
    AbsIs(s', C.Vm(Abs(s).roots, Leaves(s), Abs(s).data[p := c]));
  }

  lemma FaultStoreDoes(s: St, t: St, s': St, k: C.Key, off: nat, bs: seq<Byte>, q: nat)
    requires Does(s, t, C.Fault(k, q)) && Does(t, s', C.Store(k, off, bs, q)) && off + |bs| <= PAGE_SIZE
    ensures Does(s, s', C.Store(k, off, bs, q))
  {
    DoesActs(s, t, C.Fault(k, q));
    DoesActs(t, s', C.Store(k, off, bs, q));
    C.FaultThenStore(Abs(s), k, off, bs, q);
  }

  lemma FaultGrants(s: St, t: St, k: C.Key, q: nat)
    requires Does(s, t, C.Fault(k, q))
    ensures k in Leaves(s) && k in Leaves(t) && Leaves(t)[k].fl.w && Leaves(t)[k].fl.u == Leaves(s)[k].fl.u
  {
    DoesActs(s, t, C.Fault(k, q));
    C.FaultThenStore(Abs(s), k, 0, [], q);
  }

  method StoreAt(m: Memory, p: nat, off: nat, bs: seq<Byte>)
    requires Settled(m.S()) && p < |m.fr| && m.role[p] == Data && off + |bs| <= PAGE_SIZE
    modifies m
    ensures m.S() == FillSt(old(m.S()), p, Overwrite(Content(old(m.fr)[p]), off, bs)) && Settled(m.S())
  {
    Typed(m.S(), p);
    StoreSettled(m.S(), p, Overwrite(Content(m.fr[p]), off, bs));
    m.fr := m.fr[p := Bytes(Overwrite(AsBytes(m.fr[p]), off, bs))];
  }

  /** The store through a writable leaf. */
  method WriteBytes(m: Memory, root: nat, v: Vpn, off: nat, bs: seq<Byte>, ghost q: nat) returns (ok: bool)
    requires Settled(m.S()) && Tree(m.S(), root) && InRange(v) && off + |bs| <= PAGE_SIZE
    modifies m
    ensures ok <==> var l := Get(Leaves(old(m.S())), (root, v)); l.Some? && l.value.fl.u && l.value.fl.w
    ensures !ok ==> m.S() == old(m.S())
    ensures ok ==> Settled(m.S()) && Tree(m.S(), root) && Does(old(m.S()), m.S(), C.Store((root, v), off, bs, q))
  {
    ghost var s := m.S();
    LeafFacts(s, (root, v));
    var leaf := WalkLeaf(m, root, v);
    if leaf.None? {
      return false;
    }
    var e := AtLeaf(m, leaf.value);
    if !(e.fl.u && e.fl.w) {
      return false;
    }
    StoreDoes(s, (root, v), off, bs, q);
    StoreAt(m, e.ppn, off, bs);
    return true;
  }

  /** vpage_copyout: resolves a copy-on-write page first; a store of the flat
      machine whenever the user may write there and a copy can be had. */
  method CopyOut(m: Memory, root: nat, v: Vpn, off: nat, bs: seq<Byte>) returns (ok: bool)
    requires Settled(m.S()) && Tree(m.S(), root) && InRange(v) && off + |bs| <= PAGE_SIZE
    modifies m
    ensures var l := Get(Leaves(old(m.S())), (root, v));
            ok <==> && l.Some? && l.value.fl.u
                    && (l.value.fl.w || (l.value.fl.cow && CanClaim(old(m.S()), l.value.ppn)))
    ensures Settled(m.S()) && Tree(m.S(), root)
    ensures ok ==> exists q :: Does(old(m.S()), m.S(), C.Store((root, v), off, bs, q))
    ensures !ok ==> m.S() == old(m.S()) || exists q :: Does(old(m.S()), m.S(), C.Fault((root, v), q))
    ensures var l := Get(Leaves(old(m.S())), (root, v)); !ok && (l.Some? ==> !l.value.fl.cow) ==> m.S() == old(m.S())
  {
    ghost var s := m.S();
    ghost var q := if m.free == [] then 0 else m.free[0];
    LeafFacts(s, (root, v));
    var leaf := WalkLeaf(m, root, v);
    if leaf.None? {
      return false;
    }
    var cow := AtLeaf(m, leaf.value).fl.cow;
    if cow {
      var res := HandleCow(m, root, v);
      if res != Done {
        return false;
      }
      FaultGrants(s, m.S(), (root, v), q);
    }
    ghost var t := m.S();
    ok := WriteBytes(m, root, v, off, bs, q);
    if cow && ok {
      FaultStoreDoes(s, t, m.S(), (root, v), off, bs, q);
    }
    if cow && !ok {
      assert Does(s, m.S(), C.Fault((root, v), q));
    }
  }

  function AtLeaf(m: Memory, leaf: (nat, nat)): (e: Pte)
    requires Inv(m.S()) && leaf.0 < |m.fr| && leaf.1 < ENTRIES && m.role[leaf.0].Low?
    reads m
    ensures e == At(m.fr[leaf.0], leaf.1)
  {
    Unfold(m.S());
    assert PageOk(m.S(), leaf.0);
    AsTable(m.fr[leaf.0])[leaf.1]
  }
}
