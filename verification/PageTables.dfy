/** Physical memory with its reference counts, free list and three-level Sv39
    trees, as values: the well-formedness of the trees, the flat map a tree
    stands for, and the effect of each elementary update on both. */
module PageTables {
  import opened Common
  import opened Types
  import C = CowModel

  type Ptes = s: seq<Pte> | |s| == ENTRIES witness seq(ENTRIES, _ => NO_PTE)

  /** What a physical page holds. A page fresh from the allocator reads as a
      table without entries or as zero bytes; a page on the free list holds
      only its list node. */
  datatype Frame = Unused | Zeroed | Table(ptes: Ptes) | Bytes(bytes: Page)

  /** What a page is for: pages of the kernel image are never allocated, `Mid`
      and `Low` are the level 1 and level 0 tables of the tree with root `r`
      that the indices `a`, and `a` then `b`, lead to. */
  datatype Role = FreePage | Image | Root | Mid(r: nat, a: nat) | Low(r: nat, a: nat, b: nat) | Data

  /** Memory and its ghost bookkeeping: `held` counts the references that the
      kernel itself has (a task on its root, a page not mapped yet); the part
      of tree `r` below page number `dead[r]` has been torn down. */
  datatype St = St(fr: seq<Frame>, rc: seq<nat>, free: seq<nat>,
                   role: seq<Role>, held: seq<nat>, dead: seq<Vpn>)

  function Entries(f: Frame): Ptes {
    if f.Table? then f.ptes else seq(ENTRIES, _ => NO_PTE)
  }

  function Content(f: Frame): Page {
    if f.Bytes? then f.bytes else ZeroPage()
  }

  function Pointer(p: nat): Pte {
    Pte(true, NO_FLAGS, p)
  }

  predicate IsTable(f: Frame) {
    f.Zeroed? || f.Table?
  }

  ghost predicate Sized(s: St) {
    |s.rc| == |s.fr| && |s.role| == |s.fr| && |s.held| == |s.fr| && |s.dead| == |s.fr|
  }

  function At(f: Frame, i: nat): Pte
    requires i < ENTRIES
  {
    Entries(f)[i]
  }

  function SetEntry(f: Frame, i: nat, e: Pte): Frame
    requires i < ENTRIES
  {
    Table(Entries(f)[i := e])
  }

  // ------------------------------------------------------- the flat map of a tree

  /** The level 0 table that the indices `a` and `b` lead to, if it is linked. */
  function LowPage(s: St, r: nat, a: nat, b: nat): Option<nat>
    requires r < |s.fr| && a < ENTRIES && b < ENTRIES
  {
    var e := At(s.fr[r], a);
    if !e.v || e.ppn >= |s.fr| || !At(s.fr[e.ppn], b).v then None
    else Some(At(s.fr[e.ppn], b).ppn)
  }

  /** The leaf that tree k.0 has for page number k.1. */
  function Leaf(s: St, k: C.Key): Option<Pte>
    requires Sized(s)
  {
    if k.0 >= |s.fr| || s.role[k.0] != Root || Before(k.1, s.dead[k.0]) || !InRange(k.1) then None else
    var low := LowPage(s, k.0, k.1.i2, k.1.i1);
    if low.None? || low.value >= |s.fr| || !At(s.fr[low.value], k.1.i0).v then None
    else Some(At(s.fr[low.value], k.1.i0))
  }

  ghost function Leaves(s: St): (m: map<C.Key, Pte>)
    requires Sized(s)
    ensures forall k :: Get(m, k) == Leaf(s, k)
  {
    var keys := set r, a, b, i | 0 <= r < |s.fr| && 0 <= a < ENTRIES && 0 <= b < ENTRIES && 0 <= i < ENTRIES
                                 && Leaf(s, (r, Vpn(a, b, i))).Some? :: (r, Vpn(a, b, i));
    assert forall k | Leaf(s, k).Some? :: k == (k.0, Vpn(k.1.i2, k.1.i1, k.1.i0));
    map k | k in keys :: Leaf(s, k).value
  }

  function DataAt(s: St, p: nat): Option<Page>
    requires Sized(s)
  {
    if p < |s.fr| && (s.role[p] == Data || s.role[p] == Image) then Some(Content(s.fr[p])) else None
  }

  /** The address spaces this memory holds, as flat maps. */
  ghost function Abs(s: St): (vm: C.Vm)
    requires Sized(s)
    ensures vm.leaves == Leaves(s)
    ensures forall r: nat :: r in vm.roots <==> r < |s.fr| && s.role[r] == Root
    ensures forall p :: Get(vm.data, p) == DataAt(s, p)
  {
    C.Vm((set r: nat | r < |s.fr| && s.role[r] == Root),
         Leaves(s),
         map p: nat | p < |s.fr| && (s.role[p] == Data || s.role[p] == Image) :: Content(s.fr[p]))
  }

  lemma AbsIs(s: St, vm: C.Vm)
    requires Sized(s) && vm.leaves == Leaves(s)
    requires forall r: nat :: r in vm.roots <==> r < |s.fr| && s.role[r] == Root
    requires forall p :: Get(vm.data, p) == DataAt(s, p)
    ensures Abs(s) == vm
  {
    assert Abs(s).roots == vm.roots;
    MapExt(Abs(s).data, vm.data);
  }

  // --------------------------------------------------------------- well-formedness

  /** The memory invariant. The quantifier only keeps the long definition
      folded where no step needs it; `Unfold` opens it. */
  ghost predicate Inv(s: St) {
    Sized(s) && forall open {:trigger Opened(s, open)} :: Opened(s, open) ==> WellFormed(s)
  }

  ghost predicate Opened(s: St, open: bool) {
    true
  }

  ghost predicate WellFormed(s: St)
    requires Sized(s)
  {
    Tables(s) && FreeList(s) && Counts(s) && C.Consistent(Leaves(s))
  }

  lemma Unfold(s: St)
    requires Inv(s)
    ensures WellFormed(s)
  {
    assert Opened(s, true);
  }

  ghost predicate Tables(s: St)
    requires Sized(s)
  {
    forall p | 0 <= p < |s.fr| :: PageOk(s, p)
  }

  ghost predicate PageOk(s: St, p: nat)
    requires Sized(s) && p < |s.fr|
  {
    match s.role[p]
    case FreePage => s.fr[p] == Unused
    case Image => s.fr[p].Bytes?
    case Root => IsTable(s.fr[p]) && RootOk(s, p)
    case Mid(r, a) => IsTable(s.fr[p]) && MidOk(s, p, r, a)
    case Low(r, a, b) => IsTable(s.fr[p]) && LowOk(s, p, r, a, b)
    case Data => s.fr[p].Zeroed? || s.fr[p].Bytes?
  }

  /** An entry that links the table with role `role`. */
  ghost predicate LinkOk(s: St, e: Pte, role: Role)
    requires Sized(s)
  {
    IsPointer(e) && e.ppn < |s.fr| && s.role[e.ppn] == role
  }

  ghost predicate LeafOk(s: St, e: Pte)
    requires Sized(s)
  {
    SaneFlags(e.fl) && e.ppn < |s.fr| && s.role[e.ppn] == if e.fl.g then Image else Data
  }

  ghost predicate RootOk(s: St, r: nat)
    requires Sized(s) && r < |s.fr|
  {
    forall a | 0 <= a < ENTRIES && Before(s.dead[r], Vpn(a + 1, 0, 0)) && At(s.fr[r], a).v ::
      LinkOk(s, At(s.fr[r], a), Mid(r, a))
  }

  ghost predicate MidOk(s: St, p: nat, r: nat, a: nat)
    requires Sized(s) && p < |s.fr|
  {
    && r < |s.fr| && s.role[r] == Root && a < ENTRIES && At(s.fr[r], a).v && At(s.fr[r], a).ppn == p
    && forall j | 0 <= j < ENTRIES && Before(s.dead[r], Vpn(a, j + 1, 0)) && At(s.fr[p], j).v ::
         LinkOk(s, At(s.fr[p], j), Low(r, a, j))
  }

  ghost predicate LowOk(s: St, p: nat, r: nat, a: nat, b: nat)
    requires Sized(s) && p < |s.fr|
  {
    && r < |s.fr| && s.role[r] == Root && a < ENTRIES && b < ENTRIES && LowPage(s, r, a, b) == Some(p)
    && s.role[At(s.fr[r], a).ppn] == Mid(r, a)
    && forall i | 0 <= i < ENTRIES && !Before(Vpn(a, b, i), s.dead[r]) && At(s.fr[p], i).v ::
         LeafOk(s, At(s.fr[p], i))
  }

  ghost predicate FreeList(s: St)
    requires Sized(s)
  {
    forall i | 0 <= i < |s.free| :: FreeSlot(s, i)
  }

  ghost predicate FreeSlot(s: St, i: nat)
    requires Sized(s) && i < |s.free|
  {
    s.free[i] < |s.fr| && s.role[s.free[i]] == FreePage && forall j | 0 <= j < i :: s.free[j] != s.free[i]
  }

  /** The reference count of a page is the number of leaves, table links and
      kernel references that name it, and it is zero on the free list only. */
  ghost predicate Counts(s: St)
    requires Sized(s)
  {
    forall p | 0 <= p < |s.fr| :: CountOk(s, p)
  }

  ghost predicate CountOk(s: St, p: nat)
    requires Sized(s) && p < |s.fr|
  {
    match s.role[p]
    case FreePage => s.rc[p] == 0 && s.held[p] == 0 && p in s.free
    case Image => true
    case Root => s.rc[p] == s.held[p] > 0
    case Mid(_, _) => s.rc[p] == 1 && s.held[p] == 0
    case Low(_, _, _) => s.rc[p] == 1 && s.held[p] == 0
    case Data => s.rc[p] == |C.Holders(Leaves(s), p)| + s.held[p] > 0
  }

  lemma FreeStays(s: St, s': St)
    requires Sized(s) && Sized(s') && FreeList(s) && s'.free == s.free && |s'.fr| == |s.fr|
    requires forall p | 0 <= p < |s.fr| && s.role[p] == FreePage :: s'.role[p] == FreePage
    ensures FreeList(s')
  {
    forall i | 0 <= i < |s'.free| ensures FreeSlot(s', i) {
      assert FreeSlot(s, i);
    }
  }

  lemma FreePops(s: St, s': St)
    requires Sized(s) && Sized(s') && FreeList(s) && s.free != [] && s'.free == s.free[1..] && |s'.fr| == |s.fr|
    requires forall p | 0 <= p < |s.fr| && p != s.free[0] :: s'.role[p] == s.role[p]
    ensures FreeList(s')
  {
    forall i | 0 <= i < |s'.free| ensures FreeSlot(s', i) {
      assert FreeSlot(s, i + 1);
    }
  }

  lemma FreePushes(s: St, s': St, p: nat)
    requires Sized(s) && Sized(s') && FreeList(s) && p < |s.fr| && s'.free == [p] + s.free && |s'.fr| == |s.fr|
    requires s.role[p] != FreePage && s'.role == s.role[p := FreePage]
    ensures FreeList(s')
  {
    forall i | 0 <= i < |s'.free| ensures FreeSlot(s', i) {
      if i > 0 {
        assert FreeSlot(s, i - 1);
        forall j | 0 <= j < i ensures s'.free[j] != s'.free[i] {
          assert j > 0 ==> s'.free[j] == s.free[j - 1];
        }
      }
    }
  }

  // ---------------------------------------------------------------- paths and leaves

  /** The tables on the path to page number `v` have the roles they should. */
  lemma PathOk(s: St, r: nat, v: Vpn)
    requires Sized(s) && Tables(s)
    requires r < |s.fr| && s.role[r] == Root && !Before(v, s.dead[r]) && InRange(v)
    ensures At(s.fr[r], v.i2).v ==> LinkOk(s, At(s.fr[r], v.i2), Mid(r, v.i2))
    ensures var low := LowPage(s, r, v.i2, v.i1);
            low.Some? ==> low.value < |s.fr| && s.role[low.value] == Low(r, v.i2, v.i1)
    ensures Leaf(s, (r, v)).Some? ==> LeafOk(s, Leaf(s, (r, v)).value)
  {
    assert PageOk(s, r);
    var e := At(s.fr[r], v.i2);
    if e.v {
      assert PageOk(s, e.ppn);
      var low := LowPage(s, r, v.i2, v.i1);
      if low.Some? {
        assert PageOk(s, low.value);
      }
    }
  }

  /** Every live entry of a level 0 table is a leaf of its tree. */
  lemma EntryIsLeaf(s: St, q: nat, j: nat)
    requires Sized(s) && Tables(s) && q < |s.fr| && s.role[q].Low? && j < ENTRIES
    requires At(s.fr[q], j).v && PageOk(s, q)
    requires !Before(Vpn(s.role[q].a, s.role[q].b, j), s.dead[s.role[q].r])
    ensures var k := (s.role[q].r, Vpn(s.role[q].a, s.role[q].b, j));
            k in Leaves(s) && Leaves(s)[k] == At(s.fr[q], j)
  {
    var k := (s.role[q].r, Vpn(s.role[q].a, s.role[q].b, j));
    assert Get(Leaves(s), k) == Leaf(s, k);
  }

  /** A level 0 table stays well formed when its path, its frame and the roles
      of the pages its tree maps stay. */
  lemma LowStays(s: St, s': St, q: nat)
    requires Sized(s) && Tables(s) && Sized(s') && |s'.fr| == |s.fr| && q < |s.fr| && s.role[q].Low?
    requires PageOk(s, q)
    requires var r := s.role[q].r;
             && s'.role[q] == s.role[q] && s'.fr[q] == s.fr[q]
             && s'.role[r] == Root && s'.dead[r] == s.dead[r]
             && LowPage(s', r, s.role[q].a, s.role[q].b) == Some(q)
             && s'.role[At(s'.fr[r], s.role[q].a).ppn] == Mid(r, s.role[q].a)
    requires forall k | k in Leaves(s) && Leaves(s)[k].ppn < |s.fr| ::
               s'.role[Leaves(s)[k].ppn] == s.role[Leaves(s)[k].ppn]
    ensures PageOk(s', q)
  {
    var r := s.role[q].r;
    forall i | 0 <= i < ENTRIES && !Before(Vpn(s.role[q].a, s.role[q].b, i), s.dead[r]) && At(s.fr[q], i).v
      ensures LeafOk(s', At(s.fr[q], i))
    {
      var e := At(s.fr[q], i);
      assert LeafOk(s, e);
      EntryIsLeaf(s, q, i);
      assert s'.role[e.ppn] == s.role[e.ppn];
    }
  }

  /** The flat view satisfies the invariant of the flat machine. */
  lemma AbsInv(s: St)
    requires Inv(s)
    ensures C.Inv(Abs(s))
  {
    Unfold(s);
    var vm := Abs(s);
    forall k | k in vm.leaves ensures k.0 in vm.roots && InRange(k.1) && vm.leaves[k].ppn in vm.data
                                      && vm.leaves[k].v && SaneFlags(vm.leaves[k].fl) {
      assert Get(vm.leaves, k) == Leaf(s, k);
      PathOk(s, k.0, k.1);
    }
  }

  // --------------------------------------------------------------- writing one leaf

  /** Overwrite the leaf entry of page number `v` in tree `r`. */
  function PutLeaf(s: St, r: nat, v: Vpn, e: Pte): St
    requires r < |s.fr| && InRange(v)
    requires LowPage(s, r, v.i2, v.i1).Some? && LowPage(s, r, v.i2, v.i1).value < |s.fr|
  {
    var p := LowPage(s, r, v.i2, v.i1).value;
    s.(fr := s.fr[p := SetEntry(s.fr[p], v.i0, e)])
  }

  ghost predicate CanPutLeaf(s: St, r: nat, v: Vpn, e: Pte) {
    && Sized(s) && Tables(s)
    && r < |s.fr| && s.role[r] == Root && !Before(v, s.dead[r]) && InRange(v)
    && LowPage(s, r, v.i2, v.i1).Some? && LowPage(s, r, v.i2, v.i1).value < |s.fr|
    && (e.v ==> LeafOk(s, e))
  }

  lemma PutLeafPage(s: St, r: nat, v: Vpn, e: Pte, q: nat)
    requires CanPutLeaf(s, r, v, e) && q < |s.fr|
    ensures PageOk(PutLeaf(s, r, v, e), q)
  {
    PathOk(s, r, v);
    var p := LowPage(s, r, v.i2, v.i1).value;
    assert PageOk(s, p) && PageOk(s, q);
    if q == p {
      var f := PutLeaf(s, r, v, e).fr[p];
      assert forall i | 0 <= i < ENTRIES :: At(f, i) == if i == v.i0 then e else At(s.fr[p], i);
    }
  }

  /** Writing one leaf changes the flat map at that page number only. */
  lemma PutLeafEffect(s: St, r: nat, v: Vpn, e: Pte)
    requires CanPutLeaf(s, r, v, e)
    ensures var s' := PutLeaf(s, r, v, e);
            && Sized(s') && Tables(s')
            && forall k: C.Key :: Leaf(s', k) == if k == (r, v) then (if e.v then Some(e) else None) else Leaf(s, k)
  {
    PathOk(s, r, v);
    var p := LowPage(s, r, v.i2, v.i1).value;
    var s' := PutLeaf(s, r, v, e);
    forall q | 0 <= q < |s.fr| ensures PageOk(s', q) {
      PutLeafPage(s, r, v, e, q);
    }
    forall k: C.Key ensures Leaf(s', k) == if k == (r, v) then (if e.v then Some(e) else None) else Leaf(s, k) {
      if k.0 < |s.fr| && s.role[k.0] == Root && !Before(k.1, s.dead[k.0]) && InRange(k.1) {
        PathOk(s, k.0, k.1);
        assert LowPage(s', k.0, k.1.i2, k.1.i1) == LowPage(s, k.0, k.1.i2, k.1.i1);
      }
    }
  }

  // ------------------------------------------------- moving references between holders

  function Give(held: seq<nat>, l: Option<Pte>): (r: seq<nat>)
    ensures |r| == |held|
  {
    if l.Some? && !l.value.fl.g && l.value.ppn < |held|
    then held[l.value.ppn := held[l.value.ppn] + 1] else held
  }

  function Take(held: seq<nat>, e: Pte): (r: seq<nat>)
    ensures |r| == |held|
  {
    if e.v && !e.fl.g && e.ppn < |held| && held[e.ppn] > 0
    then held[e.ppn := held[e.ppn] - 1] else held
  }

  ghost function Bind(m: map<C.Key, Pte>, k: C.Key, e: Pte): map<C.Key, Pte> {
    if e.v then m[k := e] else m - {k}
  }

  /** PutLeaf, with the reference of the old leaf handed to the kernel and the
      one of the new leaf taken from it. */
  function Rebind(s: St, r: nat, v: Vpn, e: Pte): St
    requires Sized(s) && r < |s.fr| && InRange(v)
    requires LowPage(s, r, v.i2, v.i1).Some? && LowPage(s, r, v.i2, v.i1).value < |s.fr|
  {
    PutLeaf(s, r, v, e).(held := Take(Give(s.held, Leaf(s, (r, v))), e))
  }

  lemma SameLeaves(s: St, s': St)
    requires Sized(s) && Sized(s') && forall k: C.Key :: Leaf(s', k) == Leaf(s, k)
    ensures Leaves(s') == Leaves(s)
  {
    forall k ensures Get(Leaves(s'), k) == Get(Leaves(s), k) {
      assert Leaf(s', k) == Leaf(s, k);
    }
    MapExt(Leaves(s'), Leaves(s));
  }

  lemma SameTables(s: St, s': St)
    requires Sized(s) && Sized(s') && s'.fr == s.fr && s'.role == s.role && s'.dead == s.dead && Tables(s)
    ensures Tables(s') && Leaves(s') == Leaves(s)
  {
    forall p | 0 <= p < |s.fr| ensures PageOk(s', p) {
      assert PageOk(s, p);
    }
    SameLeaves(s, s');
  }

  lemma RebindLeaves(s: St, r: nat, v: Vpn, e: Pte)
    requires CanPutLeaf(s, r, v, e)
    ensures var s' := Rebind(s, r, v, e);
            Sized(s') && Tables(s') && Leaves(s') == Bind(Leaves(s), (r, v), e)
  {
    PutLeafLeaves(s, r, v, e);
    SameTables(PutLeaf(s, r, v, e), Rebind(s, r, v, e));
  }

  lemma PutLeafLeaves(s: St, r: nat, v: Vpn, e: Pte)
    requires CanPutLeaf(s, r, v, e)
    ensures var s' := PutLeaf(s, r, v, e);
            Sized(s') && Tables(s') && Leaves(s') == Bind(Leaves(s), (r, v), e)
  {
    PutLeafEffect(s, r, v, e);
    var s' := PutLeaf(s, r, v, e);
    BindExt(Leaves(s), Leaves(s'), (r, v), e);
  }

  lemma BindExt(m: map<C.Key, Pte>, m': map<C.Key, Pte>, k: C.Key, e: Pte)
    requires forall j :: Get(m', j) == if j == k then (if e.v then Some(e) else None) else Get(m, j)
    ensures m' == Bind(m, k, e)
  {
    forall j ensures Get(m', j) == Get(Bind(m, k, e), j) {}
    MapExt(m', Bind(m, k, e));
  }

  /** Rebinding a leaf keeps every count equal to the number of references. */
  lemma RebindOk(s: St, r: nat, v: Vpn, e: Pte)
    requires Inv(s) && CanPutLeaf(s, r, v, e)
    requires C.Consistent(Bind(Leaves(s), (r, v), e))
    requires e.v && !e.fl.g ==> Give(s.held, Leaf(s, (r, v)))[e.ppn] > 0
    ensures var s' := Rebind(s, r, v, e);
            Inv(s') && Leaves(s') == Bind(Leaves(s), (r, v), e)
  {
    Unfold(s);
    var s' := Rebind(s, r, v, e);
    RebindLeaves(s, r, v, e);
    PathOk(s, r, v);
    FreeStays(s, s');
    forall p | 0 <= p < |s.fr| ensures CountOk(s', p) {
      assert CountOk(s, p);
      RebindCount(s, s', (r, v), e, p);
    }
  }

  lemma RebindCount(s: St, s': St, k: C.Key, e: Pte, p: nat)
    requires Sized(s) && Sized(s') && |s'.fr| == |s.fr| && p < |s.fr| && CountOk(s, p)
    requires s'.rc == s.rc && s'.role == s.role && s'.free == s.free
    requires s'.held == Take(Give(s.held, Leaf(s, k)), e) && Leaves(s') == Bind(Leaves(s), k, e)
    requires Leaf(s, k).Some? ==> LeafOk(s, Leaf(s, k).value)
    requires e.v ==> LeafOk(s, e) && (!e.fl.g ==> Give(s.held, Leaf(s, k))[e.ppn] > 0)
    ensures CountOk(s', p)
  {
    assert Get(Leaves(s), k) == Leaf(s, k);
    if s.role[p] == Data {
      RebindHeld(Leaves(s), s.held, k, e, p);
    } else {
      assert s'.held[p] == s.held[p];
    }
  }

  /** What a leaf loses the kernel gains, and the other way round. */
  lemma RebindHeld(leaves: map<C.Key, Pte>, held: seq<nat>, k: C.Key, e: Pte, p: nat)
    requires p < |held| && (e.v && !e.fl.g ==> e.ppn < |held| && Give(held, Get(leaves, k))[e.ppn] > 0)
    requires k in leaves ==> leaves[k].ppn < |held|
    ensures |C.Holders(Bind(leaves, k, e), p)| + Take(Give(held, Get(leaves, k)), e)[p] ==
            |C.Holders(leaves, p)| + held[p]
  {
    if e.v {
      C.HoldersUpdate(leaves, k, e, p);
    } else {
      C.HoldersRemove(leaves, k, p);
    }
  }

  // ---------------------------------------------------------- pages that are no tables

  predicate IsTableRole(role: Role) {
    role.Root? || role.Mid? || role.Low?
  }

  /** Only page `p`, which is no table and which no leaf names unless its role
      stays, changed its frame and role; it may have become an empty root. */
  ghost predicate PlainChange(s: St, s': St, p: nat) {
    && Sized(s) && Sized(s') && |s'.fr| == |s.fr| && p < |s.fr|
    && (forall q | 0 <= q < |s.fr| && q != p ::
          s'.fr[q] == s.fr[q] && s'.role[q] == s.role[q] && s'.dead[q] == s.dead[q])
    && !IsTableRole(s.role[p])
    && (s'.role[p] == Root || !IsTableRole(s'.role[p]))
    && (s'.role[p] == Root ==> s'.fr[p] == Zeroed)
    && (s'.role[p] == s.role[p] || C.Unmapped(Leaves(s), p))
    && PageOk(s', p)
  }

  lemma PlainChangePage(s: St, s': St, p: nat, q: nat)
    requires Sized(s) && Tables(s) && PlainChange(s, s', p) && q < |s.fr|
    ensures PageOk(s', q)
  {
    assert PageOk(s, q);
    if q != p && s.role[q].Low? {
      assert PageOk(s, At(s.fr[s.role[q].r], s.role[q].a).ppn);
      LowStays(s, s', q);
    }
  }

  lemma PlainChangeOk(s: St, s': St, p: nat)
    requires Sized(s) && Tables(s) && PlainChange(s, s', p)
    ensures Tables(s') && Leaves(s') == Leaves(s)
  {
    forall q | 0 <= q < |s.fr| ensures PageOk(s', q) {
      PlainChangePage(s, s', p, q);
    }
    forall k: C.Key ensures Leaf(s', k) == Leaf(s, k) {
      if k.0 < |s.fr| && k.0 != p && s.role[k.0] == Root && !Before(k.1, s.dead[k.0]) && InRange(k.1) {
        PathOk(s, k.0, k.1);
        assert LowPage(s', k.0, k.1.i2, k.1.i1) == LowPage(s, k.0, k.1.i2, k.1.i1);
      }
    }
    SameLeaves(s, s');
  }

  // ------------------------------------------------------------- the page allocator

  /** The increment of a uint8_t. */
  function Inc8(n: nat): nat {
    if n == 255 then 0 else n + 1
  }

  /** page_alloc: the head of the free list, zeroed, with one reference. */
  function AllocSt(s: St): (s': St)
    requires Sized(s) && s.free != []
    ensures Sized(s') && |s'.fr| == |s.fr|
  {
    var p := s.free[0];
    if p >= |s.fr| then s else
    St(s.fr[p := Zeroed], s.rc[p := Inc8(s.rc[p])], s.free[1..],
       s.role[p := Data], s.held[p := 1], s.dead)
  }

  /** page_get: one more reference, in an 8-bit counter. */
  function GetSt(s: St, p: nat): St
    requires Sized(s) && p < |s.fr|
  {
    s.(rc := s.rc[p := Inc8(s.rc[p])], held := s.held[p := s.held[p] + 1])
  }

  /** page_put: one reference less, and back to the free list after the last. */
  function PutSt(s: St, p: nat): St
    requires Sized(s) && p < |s.fr| && s.rc[p] > 0
  {
    var held := s.held[p := if s.held[p] > 0 then s.held[p] - 1 else 0];
    if s.rc[p] == 1
    then St(s.fr[p := Unused], s.rc[p := 0], [p] + s.free, s.role[p := FreePage], held, s.dead)
    else St(s.fr, s.rc[p := s.rc[p] - 1], s.free, s.role, held, s.dead)
  }

  /** The kernel or a user store writes the bytes of a data page. */
  function FillSt(s: St, p: nat, bytes: Page): St
    requires p < |s.fr|
  {
    s.(fr := s.fr[p := Bytes(bytes)])
  }

  /** A fresh page starts its life as the root of an empty tree. */
  function AdoptSt(s: St, p: nat): St
    requires Sized(s) && p < |s.fr|
  {
    s.(role := s.role[p := Root], dead := s.dead[p := FIRST])
  }

  lemma NoLeafOf(s: St, p: nat)
    requires Inv(s) && p < |s.fr| && s.role[p] != Image
    requires s.role[p] != Data || s.rc[p] == s.held[p]
    ensures C.Unmapped(Leaves(s), p)
  {
    Unfold(s);
    assert CountOk(s, p);
    forall k | k in Leaves(s) ensures Leaves(s)[k].ppn != p {
      assert Get(Leaves(s), k) == Leaf(s, k);
      PathOk(s, k.0, k.1);
      assert Leaves(s)[k].ppn == p ==> C.Holds(Leaves(s), k, p) && k in C.Holders(Leaves(s), p);
    }
  }

  lemma OtherCounts(s: St, s': St, p: nat)
    requires Inv(s) && Sized(s') && |s'.fr| == |s.fr| && Leaves(s') == Leaves(s) && p < |s.fr|
    requires forall q | 0 <= q < |s.fr| && q != p ::
               s'.rc[q] == s.rc[q] && s'.held[q] == s.held[q] && s'.role[q] == s.role[q]
    requires forall q | q in s.free && q != p :: q in s'.free
    requires CountOk(s', p)
    ensures Counts(s')
  {
    Unfold(s);
    forall q | 0 <= q < |s.fr| ensures CountOk(s', q) {
      assert CountOk(s, q);
    }
  }

  lemma AllocOk(s: St)
    requires Inv(s) && s.free != []
    ensures s.free[0] < |s.fr| && Inv(AllocSt(s)) && Leaves(AllocSt(s)) == Leaves(s)
    ensures C.Unmapped(Leaves(s), s.free[0])
    ensures s.role[s.free[0]] == FreePage && s.held[s.free[0]] == 0 && s.rc[s.free[0]] == 0
  {
    Unfold(s);
    var s', p := AllocSt(s), s.free[0];
    assert FreeSlot(s, 0);
    NoLeafOf(s, p);
    FreePops(s, s');
    PlainChangeOk(s, s', p);
    forall k ensures !C.Holds(Leaves(s), k, p) {}
    assert CountOk(s, p) && C.Holders(Leaves(s), p) == {};
    OtherCounts(s, s', p);
  }

  lemma GetOk(s: St, p: nat)
    requires Inv(s) && p < |s.fr| && (s.role[p] == Data || s.role[p] == Root ==> s.rc[p] < 255)
    requires s.role[p] == Data || s.role[p] == Root || s.role[p] == Image
    ensures Inv(GetSt(s, p)) && Leaves(GetSt(s, p)) == Leaves(s)
  {
    Unfold(s);
    var s' := GetSt(s, p);
    SameTables(s, s');
    FreeStays(s, s');
    assert CountOk(s, p);
    OtherCounts(s, s', p);
  }

  lemma PutOk(s: St, p: nat)
    requires Inv(s) && p < |s.fr| && s.held[p] > 0
    requires s.role[p] == Data || (s.role[p] == Root && s.rc[p] > 1)
    ensures s.rc[p] > 0 && Inv(PutSt(s, p)) && Leaves(PutSt(s, p)) == Leaves(s)
    ensures s.rc[p] == 1 ==> C.Unmapped(Leaves(s), p)
  {
    Unfold(s);
    assert CountOk(s, p) && PageOk(s, p);
    var s' := PutSt(s, p);
    if s.rc[p] == 1 {
      NoLeafOf(s, p);
      FreePushes(s, s', p);
      PlainChangeOk(s, s', p);
    } else {
      SameTables(s, s');
      FreeStays(s, s');
    }
    OtherCounts(s, s', p);
  }

  lemma FillOk(s: St, p: nat, bytes: Page)
    requires Inv(s) && p < |s.fr| && s.role[p] == Data
    ensures Inv(FillSt(s, p, bytes)) && Leaves(FillSt(s, p, bytes)) == Leaves(s)
  {
    Unfold(s);
    var s' := FillSt(s, p, bytes);
    PlainChangeOk(s, s', p);
    FreeStays(s, s');
    assert CountOk(s, p);
    OtherCounts(s, s', p);
  }

  lemma AdoptOk(s: St, p: nat)
    requires Inv(s) && p < |s.fr| && s.role[p] == Data && s.fr[p] == Zeroed && s.rc[p] == s.held[p]
    ensures Inv(AdoptSt(s, p)) && Leaves(AdoptSt(s, p)) == Leaves(s)
    ensures C.Unmapped(Leaves(s), p)
  {
    Unfold(s);
    var s' := AdoptSt(s, p);
    NoLeafOf(s, p);
    PlainChangeOk(s, s', p);
    FreeStays(s, s');
    assert CountOk(s, p);
    OtherCounts(s, s', p);
  }

  // ------------------------------------------------------------------ linking a table

  /** A fresh page becomes a table: `role` says which, entry `i` of table `m`
      now points to it. */
  function LinkSt(s: St, m: nat, i: nat, p: nat, role: Role): St
    requires Sized(s) && m < |s.fr| && p < |s.fr| && i < ENTRIES
  {
    s.(fr := s.fr[m := SetEntry(s.fr[m], i, Pointer(p))],
       role := s.role[p := role], held := s.held[p := 0])
  }

  /** Entry `i` of table `m` is empty and is where the table `role` belongs. */
  ghost predicate LinkSite(s: St, m: nat, i: nat, role: Role)
    requires Sized(s)
  {
    && m < |s.fr| && i < ENTRIES && !At(s.fr[m], i).v
    && match role
       case Mid(r, a) => m == r && s.role[r] == Root && a == i
       case Low(r, a, b) => s.role[m] == Mid(r, a) && b == i
       case _ => false
  }

  ghost predicate FreshPage(s: St, p: nat)
    requires Sized(s)
  {
    p < |s.fr| && s.role[p] == Data && s.fr[p] == Zeroed && s.rc[p] == s.held[p] == 1
  }

  lemma LinkLowPage(s: St, m: nat, i: nat, p: nat, role: Role, q: nat)
    requires Sized(s) && Tables(s) && C.Unmapped(Leaves(s), p) && LinkSite(s, m, i, role) && FreshPage(s, p)
    requires q < |s.fr| && s.role[q].Low?
    ensures PageOk(LinkSt(s, m, i, p, role), q)
  {
    assert PageOk(s, q);
    LinkLowPath(s, m, i, p, role, q);
    LowStays(s, LinkSt(s, m, i, p, role), q);
  }

  /** The path to a level 0 table that was there before. */
  lemma LinkLowPath(s: St, m: nat, i: nat, p: nat, role: Role, q: nat)
    requires Sized(s) && Tables(s) && LinkSite(s, m, i, role) && FreshPage(s, p) && q < |s.fr| && s.role[q].Low?
    ensures PageOk(s, q)
    ensures var s', r, a := LinkSt(s, m, i, p, role), s.role[q].r, s.role[q].a;
            && s'.role[q] == s.role[q] && s'.fr[q] == s.fr[q] && s'.role[r] == Root && s'.dead[r] == s.dead[r]
            && LowPage(s', r, a, s.role[q].b) == Some(q) && s'.role[At(s'.fr[r], a).ppn] == Mid(r, a)
  {
    assert PageOk(s, q) && PageOk(s, At(s.fr[s.role[q].r], s.role[q].a).ppn) && PageOk(s, m);
    assert q != p && q != m;
    LinkEntries(s, m, i, p, role);
  }

  lemma LinkEntries(s: St, m: nat, i: nat, p: nat, role: Role)
    requires Sized(s) && m < |s.fr| && p < |s.fr| && i < ENTRIES
    ensures var f := LinkSt(s, m, i, p, role).fr[m];
            forall j | 0 <= j < ENTRIES :: At(f, j) == if j == i then Pointer(p) else At(s.fr[m], j)
  {
  }

  lemma LinkUpperPage(s: St, m: nat, i: nat, p: nat, role: Role, q: nat)
    requires Sized(s) && Tables(s) && LinkSite(s, m, i, role) && FreshPage(s, p) && q < |s.fr|
    requires s.role[q].Root? || s.role[q].Mid?
    ensures PageOk(LinkSt(s, m, i, p, role), q)
  {
    var s' := LinkSt(s, m, i, p, role);
    assert PageOk(s, m) && PageOk(s, q);
    LinkEntries(s, m, i, p, role);
    if s.role[q].Mid? {
      var r, a := s.role[q].r, s.role[q].a;
      assert At(s'.fr[r], a) == At(s.fr[r], a);
    }
  }

  lemma LinkPage(s: St, m: nat, i: nat, p: nat, role: Role, q: nat)
    requires Sized(s) && Tables(s) && C.Unmapped(Leaves(s), p)
    requires LinkSite(s, m, i, role) && FreshPage(s, p) && q < |s.fr|
    ensures PageOk(LinkSt(s, m, i, p, role), q)
  {
    assert PageOk(s, m) && PageOk(s, q);
    if s.role[q].Low? {
      LinkLowPage(s, m, i, p, role, q);
    } else if q == p {
      LinkNewPage(s, m, i, p, role);
    } else if s.role[q].Root? || s.role[q].Mid? {
      LinkUpperPage(s, m, i, p, role, q);
    }
  }

  lemma LinkNewPage(s: St, m: nat, i: nat, p: nat, role: Role)
    requires Sized(s) && Tables(s) && LinkSite(s, m, i, role) && FreshPage(s, p)
    ensures PageOk(LinkSt(s, m, i, p, role), p)
  {
    assert PageOk(s, m);
    LinkEntries(s, m, i, p, role);
    var s' := LinkSt(s, m, i, p, role);
    assert m != p && s'.fr[p] == Zeroed;
    if role.Low? {
      assert At(s'.fr[role.r], role.a) == At(s.fr[role.r], role.a);
      assert LowPage(s', role.r, role.a, role.b) == Some(p);
    }
  }

  lemma LinkLeaves(s: St, m: nat, i: nat, p: nat, role: Role)
    requires Sized(s) && Tables(s) && LinkSite(s, m, i, role) && FreshPage(s, p)
    ensures Leaves(LinkSt(s, m, i, p, role)) == Leaves(s)
  {
    var s' := LinkSt(s, m, i, p, role);
    assert PageOk(s, m);
    LinkEntries(s, m, i, p, role);
    forall k: C.Key ensures Leaf(s', k) == Leaf(s, k) {
      if k.0 < |s.fr| && s.role[k.0] == Root && !Before(k.1, s.dead[k.0]) && InRange(k.1) {
        PathOk(s, k.0, k.1);
        LinkLowPages(s, m, i, p, role, k.0, k.1.i2, k.1.i1);
      }
    }
    SameLeaves(s, s');
  }

  /** A link adds at most one level 0 table, an empty one. */
  lemma LinkLowPages(s: St, m: nat, i: nat, p: nat, role: Role, r: nat, a: nat, b: nat)
    requires Sized(s) && Tables(s) && LinkSite(s, m, i, role) && FreshPage(s, p)
    requires r < |s.fr| && s.role[r] == Root && a < ENTRIES && b < ENTRIES
    requires At(s.fr[r], a).v ==> LinkOk(s, At(s.fr[r], a), Mid(r, a))
    ensures var s' := LinkSt(s, m, i, p, role);
            || LowPage(s', r, a, b) == LowPage(s, r, a, b)
            || (LowPage(s, r, a, b) == None && LowPage(s', r, a, b) == Some(p) && s'.fr[p] == Zeroed)
  {
    assert PageOk(s, m);
    LinkEntries(s, m, i, p, role);
  }

  /** Linking an empty table changes no leaf and keeps every invariant. */
  lemma LinkTableOk(s: St, m: nat, i: nat, p: nat, role: Role)
    requires Inv(s) && LinkSite(s, m, i, role) && FreshPage(s, p)
    ensures Inv(LinkSt(s, m, i, p, role)) && Leaves(LinkSt(s, m, i, p, role)) == Leaves(s)
  {
    Unfold(s);
    var s' := LinkSt(s, m, i, p, role);
    NoLeafOf(s, p);
    FreeStays(s, s');
    forall q | 0 <= q < |s.fr| ensures PageOk(s', q) {
      LinkPage(s, m, i, p, role, q);
    }
    LinkLeaves(s, m, i, p, role);
    assert CountOk(s, p);
    OtherCounts(s, s', p);
  }

  // ------------------------------------------------------------------ tearing a tree down

  function DeadSt(s: St, r: nat, d: Vpn): St
    requires Sized(s) && r < |s.fr|
  {
    s.(dead := s.dead[r := d])
  }

  /** The torn-down part of a tree may grow over page numbers without a leaf. */
  lemma DeadOk(s: St, r: nat, d: Vpn)
    requires Inv(s) && r < |s.fr| && s.role[r] == Root && !Before(d, s.dead[r])
    requires forall v | !Before(v, s.dead[r]) && Before(v, d) :: Leaf(s, (r, v)) == None
    ensures Inv(DeadSt(s, r, d)) && Leaves(DeadSt(s, r, d)) == Leaves(s)
  {
    Unfold(s);
    var s' := DeadSt(s, r, d);
    forall q | 0 <= q < |s.fr| ensures PageOk(s', q) {
      assert PageOk(s, q);
    }
    forall k: C.Key ensures Leaf(s', k) == Leaf(s, k) {
      if k.0 == r && !Before(k.1, s.dead[r]) && Before(k.1, d) {
        assert Leaf(s, (r, k.1)) == None;
      }
    }
    SameLeaves(s, s');
    FreeStays(s, s');
    forall q | 0 <= q < |s.fr| ensures CountOk(s', q) {
      assert CountOk(s, q);
    }
  }

  /** Table `p` covers only torn-down page numbers and links no other table. */
  ghost predicate Retired(s: St, p: nat)
    requires Sized(s) && p < |s.fr|
  {
    match s.role[p]
    case Low(r, a, b) => r < |s.fr| && !Before(s.dead[r], Vpn(a, b + 1, 0))
    case Mid(r, a) => r < |s.fr| && !Before(s.dead[r], Vpn(a + 1, 0, 0)) &&
                      forall q | 0 <= q < |s.fr| && s.role[q].Low? && s.role[q].r == r :: s.role[q].a != a
    case Root => s.dead[p] == END && s.held[p] == 1 &&
                 forall q | 0 <= q < |s.fr| && (s.role[q].Mid? || s.role[q].Low?) :: s.role[q].r != p
    case _ => false
  }

  lemma RetirePage(s: St, p: nat, q: nat)
    requires Sized(s) && Tables(s) && p < |s.fr| && Retired(s, p) && s.rc[p] == 1 && q < |s.fr|
    ensures PageOk(PutSt(s, p), q)
  {
    var s' := PutSt(s, p);
    assert PageOk(s, p) && PageOk(s, q);
    if q != p && s.role[q].Low? {
      var m := At(s.fr[s.role[q].r], s.role[q].a).ppn;
      assert PageOk(s, m) && m != p && s.role[q].r != p;
      forall k | k in Leaves(s) && Leaves(s)[k].ppn < |s.fr| ensures Leaves(s)[k].ppn != p {
        assert Get(Leaves(s), k) == Leaf(s, k);
        PathOk(s, k.0, k.1);
      }
      LowStays(s, s', q);
    }
  }

  lemma RetireLeaves(s: St, p: nat)
    requires Sized(s) && Tables(s) && p < |s.fr| && Retired(s, p) && s.rc[p] == 1
    ensures Leaves(PutSt(s, p)) == Leaves(s)
  {
    var s' := PutSt(s, p);
    assert PageOk(s, p);
    forall k: C.Key ensures Leaf(s', k) == Leaf(s, k) {
      if k.0 < |s.fr| && k.0 != p && s.role[k.0] == Root && !Before(k.1, s.dead[k.0]) && InRange(k.1) {
        PathOk(s, k.0, k.1);
        assert At(s.fr[k.0], k.1.i2).v ==> At(s.fr[k.0], k.1.i2).ppn != p;
        assert LowPage(s', k.0, k.1.i2, k.1.i1) == LowPage(s, k.0, k.1.i2, k.1.i1);
      }
    }
    SameLeaves(s, s');
  }

  lemma RetireOk(s: St, p: nat)
    requires Inv(s) && p < |s.fr| && Retired(s, p)
    ensures s.rc[p] == 1 && Inv(PutSt(s, p)) && Leaves(PutSt(s, p)) == Leaves(s)
  {
    Unfold(s);
    assert CountOk(s, p);
    var s' := PutSt(s, p);
    FreePushes(s, s', p);
    forall q | 0 <= q < |s.fr| ensures PageOk(s', q) {
      RetirePage(s, p, q);
    }
    RetireLeaves(s, p);
    OtherCounts(s, s', p);
  }

  // ------------------------------------------------- what the updates do to the contents

  /** Leaf entries are no data: rebinding one changes no content, role or count. */
  lemma RebindFields(s: St, r: nat, v: Vpn, e: Pte)
    requires CanPutLeaf(s, r, v, e)
    ensures var s' := Rebind(s, r, v, e);
            && s'.role == s.role && s'.rc == s.rc && s'.free == s.free && s'.dead == s.dead && |s'.fr| == |s.fr|
            && s'.held == Take(Give(s.held, Leaf(s, (r, v))), e)
            && (forall x | 0 <= x < |s.fr| && !s.role[x].Low? :: s'.fr[x] == s.fr[x])
            && forall x :: DataAt(s', x) == DataAt(s, x)
  {
    PathOk(s, r, v);
  }

  lemma PutData(s: St, p: nat)
    requires Sized(s) && p < |s.fr| && s.rc[p] > 0
    ensures forall x :: DataAt(PutSt(s, p), x) == if x == p && s.rc[p] == 1 then None else DataAt(s, x)
  {
  }

  lemma AllocData(s: St)
    requires Sized(s) && s.free != [] && s.free[0] < |s.fr|
    ensures forall x :: DataAt(AllocSt(s), x) == if x == s.free[0] then Some(ZeroPage()) else DataAt(s, x)
  {
  }
}
