/** What creating and destroying tasks does to memory (task_clone, task_destroy). */
module TaskMemory {
  import opened Common
  import opened Types
  import opened PageTables
  import opened Pages
  import opened Vpages
  import opened AddressSpaces
  import opened ForkTree
  import F = FreeTree
  import C = CowModel
  import P = Permissions

  /** Memory `s'` is `s` after a run of the flat machine. (Folded.) */
  ghost predicate Runs(s: St, s': St, acts: seq<C.Action>) {
    && Sized(s) && Sized(s')
    && forall open {:trigger Opened(s, open), Opened(s', open)} ::
         Opened(s, open) && Opened(s', open) ==> Ran(Abs(s), Abs(s'), acts)
  }

  ghost predicate Ran(vm: C.Vm, vm': C.Vm, acts: seq<C.Action>) {
    C.Runnable(vm, acts) && vm' == C.Run(vm, acts)
  }

  lemma RunsRan(s: St, s': St, acts: seq<C.Action>)
    requires Runs(s, s', acts)
    ensures Ran(Abs(s), Abs(s'), acts)
  {
    assert Opened(s, true) && Opened(s', true);
  }

  lemma {:induction false} RanMore(vm: C.Vm, vm': C.Vm, vm'': C.Vm, acts: seq<C.Action>, act: C.Action)
    requires Ran(vm, vm', acts) && Acts(vm', vm'', act) && C.Inv(vm'')
    ensures Ran(vm, vm'', acts + [act])
    decreases |acts|
  {
    if acts == [] {
      assert (acts + [act])[1..] == [];
    } else {
      RanMore(C.Apply(vm, acts[0]), vm', vm'', acts[1..], act);
      assert (acts + [act])[1..] == acts[1..] + [act];
    }
  }

  lemma RunsNone(s: St)
    requires Inv(s)
    ensures Runs(s, s, [])
  {
    AbsInv(s);
  }

  lemma RunsMore(s: St, t: St, s': St, acts: seq<C.Action>, act: C.Action)
    requires Runs(s, t, acts) && Does(t, s', act) && Inv(s')
    ensures Runs(s, s', acts + [act])
  {
    RunsRan(s, t, acts);
    DoesActs(t, s', act);
    AbsInv(s');
    RanMore(Abs(s), Abs(t), Abs(s'), acts, act);
  }

  /** Over every run of the code, what every space reads and may write is what
      it would if fork had copied every page at once. */
  lemma MemoryRefines(s: St, s': St, acts: seq<C.Action>, k: C.Key)
    requires Inv(s) && Runs(s, s', acts)
    ensures C.Inv(Abs(s)) && C.Inv(Abs(s'))
    ensures Get(C.RunSimple(C.View(Abs(s)), acts).pages, k) == C.Image(Abs(s'), k)
  {
    AbsInv(s);
    RunsRan(s, s', acts);
    C.RunRefines(Abs(s), C.View(Abs(s)), acts);
  }

  // --------------------------------------------------- the kernel's own steps as actions

  /** A page that only the kernel refers to. */
  ghost predicate Loose(s: St, p: nat) {
    Settled(s) && p < |s.fr| && s.role[p] == Data && s.held[p] > 0
  }

  lemma LooseUnmapped(s: St, p: nat)
    requires Loose(s, p)
    ensures C.Unmapped(Leaves(s), p)
  {
    forall k | k in Leaves(s) ensures Leaves(s)[k].ppn != p {
      LeafFacts(s, k);
      assert QuietAt(s, k);
    }
  }

  lemma AllocDoes(s: St)
    requires Settled(s) && s.free != []
    ensures var s' := AllocSt(s);
            && s.free[0] < |s.fr| && Settled(s') && Leaves(s') == Leaves(s) && Loose(s', s.free[0])
            && Does(s, s', C.Alloc(s.free[0]))
  {
    AllocOk(s);
    var s', p := AllocSt(s), s.free[0];
    forall k ensures QuietAt(s', k) {
      assert QuietAt(s, k);
    }
    AbsInv(s);
    AllocData(s);
    forall x ensures Get(Abs(s).data[p := ZeroPage()], x) == DataAt(s', x) {
      assert Get(Abs(s).data, x) == DataAt(s, x);
    }
    AbsIs(s', C.Vm(Abs(s).roots, Leaves(s), Abs(s).data[p := ZeroPage()]));
  }

  lemma AdoptDoes(s: St, p: nat)
    requires Loose(s, p) && s.fr[p] == Zeroed
    ensures var s' := AdoptSt(s, p);
            Settled(s') && Leaves(s') == Leaves(s) && EmptyTree(s', p) && Does(s, s', C.Adopt(p))
  {
    var s' := AdoptSt(s, p);
    LooseUnmapped(s, p);
    LooseCount(s, p);
    AdoptOk(s, p);
    QuietStays(s, s');
    forall k | k in Leaves(s) ensures k.0 != p {
      LeafFacts(s, k);
    }
    AbsInv(s);
    assert Get(Abs(s).data, p) == DataAt(s, p);
    forall x ensures Get(Abs(s).data - {p}, x) == DataAt(s', x) {
      assert Get(Abs(s).data, x) == DataAt(s, x);
    }
    AbsIs(s', C.Vm(Abs(s).roots + {p}, Leaves(s), Abs(s).data - {p}));
  }

  lemma LooseCount(s: St, p: nat)
    requires Loose(s, p)
    ensures s.rc[p] == s.held[p]
  {
    LooseUnmapped(s, p);
    Unfold(s);
    assert CountOk(s, p);
    forall k ensures !C.Holds(Leaves(s), k, p) {}
    assert C.Holders(Leaves(s), p) == {};
  }

  lemma FillDoes(s: St, p: nat, bytes: Page)
    requires Loose(s, p)
    ensures var s' := FillSt(s, p, bytes);
            Loose(s', p) && Leaves(s') == Leaves(s) && Does(s, s', C.Fill(p, bytes))
  {
    LooseUnmapped(s, p);
    StoreSettled(s, p, bytes);
    AbsInv(s);
    assert Get(Abs(s).data, p) == DataAt(s, p);
    StoreData(s, p, bytes);
  }

  lemma MapFits(s: St, root: nat, v: Vpn, p: nat, fl: Flags)
    requires Loose(s, p) && Tree(s, root) && (root, v) !in Leaves(s) && SaneFlags(fl) && !fl.g
    ensures Mappable(s, (root, v), LeafPte(p, fl))
  {
    LooseUnmapped(s, p);
    Unfold(s);
    assert Get(Leaves(s), (root, v)) == Leaf(s, (root, v));
    ConsistentRebind(Leaves(s), (root, v), LeafPte(p, fl));
  }

  lemma MapDoes(s: St, s': St, root: nat, v: Vpn, p: nat, fl: Flags)
    requires Loose(s, p) && Tree(s, root) && (root, v) !in Leaves(s) && SaneFlags(fl) && !fl.g && InRange(v)
    requires Tree(s', root) && Grown(s, s', root) && Leaves(s') == Leaves(s)[(root, v) := LeafPte(p, fl)]
    requires s'.held == s.held[p := s.held[p] - 1]
    ensures Does(s, s', C.Map((root, v), p, fl)) && (s.held[p] == 1 ==> Settled(s'))
  {
    LooseUnmapped(s, p);
    AbsInv(s);
    GrownData(s, s', root);
    assert Get(Abs(s).data, p) == DataAt(s, p);
    if s.held[p] == 1 {
      forall k ensures QuietAt(s', k) {
        assert QuietAt(s, k);
      }
    }
  }

  // ----------------------------------------------------------------- the kernel's pages

  lemma GlobalFits(s: St, root: nat, v: Vpn, p: nat, fl: Flags)
    requires Settled(s) && Tree(s, root) && (root, v) !in Leaves(s) && p < |s.fr| && s.role[p] == Image
    requires SaneFlags(fl) && fl.g
    ensures Mappable(s, (root, v), LeafPte(p, fl)) && !C.Held(Leaves(s), p) && Leaf(s, (root, v)) == None
  {
    Unfold(s);
    assert Get(Leaves(s), (root, v)) == Leaf(s, (root, v));
    forall k | k in Leaves(s) && Leaves(s)[k].ppn == p ensures Leaves(s)[k].fl.g && !Leaves(s)[k].fl.w {
      LeafFacts(s, k);
    }
    ConsistentRebind(Leaves(s), (root, v), LeafPte(p, fl));
  }

  lemma GlobalDoes(s: St, s': St, root: nat, v: Vpn, p: nat, fl: Flags)
    requires Settled(s) && Tree(s, root) && InRange(v) && p < |s.fr| && s.role[p] == Image && SaneFlags(fl) && fl.g
    requires (root, v) !in Leaves(s) && !C.Held(Leaves(s), p)
    requires Tree(s', root) && Grown(s, s', root) && Leaves(s') == Leaves(s)[(root, v) := LeafPte(p, fl)]
    requires s'.held == s.held
    ensures Does(s, s', C.Map((root, v), p, fl)) && Settled(s')
  {
    AbsInv(s);
    GrownData(s, s', root);
    assert Get(Abs(s).data, p) == DataAt(s, p);
    SettledQuiet(s);
    GlobalQuiet(Leaves(s), Leaves(s'), s.held, (root, v), LeafPte(p, fl));
    QuietSettled(s', Leaves(s'), s.held);
  }

  lemma GlobalQuiet(leaves: map<C.Key, Pte>, now: map<C.Key, Pte>, held: seq<nat>, k: C.Key, e: Pte)
    requires now == leaves[k := e] && e.fl.g && forall j :: Quiet(leaves, held, j)
    ensures forall j :: Quiet(now, held, j)
  {
    forall j ensures Quiet(now, held, j) {
      assert Quiet(leaves, held, j);
    }
  }

  /** vpage_map of a page of the kernel image, such as the trampoline, which no
      space holds a reference on. */
  method MapGlobal(m: Memory, root: nat, v: Vpn, p: nat, fl: Flags) returns (ok: bool)
    requires Settled(m.S()) && Tree(m.S(), root) && InRange(v) && (root, v) !in Leaves(m.S())
    requires p < |m.fr| && m.role[p] == Image && SaneFlags(fl) && fl.g
    modifies m
    ensures ok <==> |old(m.free)| >= Missing(old(m.S()), root, v)
    ensures ok ==> Settled(m.S()) && Tree(m.S(), root) && Does(old(m.S()), m.S(), C.Map((root, v), p, fl))
    ensures ok ==>
              && Leaves(m.S()) == Leaves(old(m.S()))[(root, v) := LeafPte(p, fl)] && Grown(old(m.S()), m.S(), root)
              && |m.free| == |old(m.free)| - Missing(old(m.S()), root, v)
  {
    ghost var s := m.S();
    GlobalFits(s, root, v, p, fl);
    ok := VpageMap(m, root, v, p, fl);
    if ok {
      GlobalDoes(s, m.S(), root, v, p, fl);
    }
  }

  /** A memory of three pages in which vpage_map fails and leaves the root with
      a valid entry for a page on the free list. */
  method FailedMap() returns (m: Memory, root: nat, ok: bool)
    ensures !ok && root < |m.fr| && At(m.fr[root], 0).v && At(m.fr[root], 0).ppn in m.free && !Inv(m.S())
  {
    m := new Memory([], 3);
    var p := TakePage(m);
    var r := TakePage(m);
    root := r.value;
    AdoptDoes(m.S(), root);
    m.role, m.dead := m.role[root := Root], m.dead[root := FIRST];
    MapFits(m.S(), root, FIRST, p.value, TFRAME_FLAGS);
    ok := VpageMap(m, root, FIRST, p.value, TFRAME_FLAGS);
  }

  // ------------------------------------------------------------------------ task_clone

  const TFRAME_SIZE := 35 * 8
  const A0 := 2 * 8
  const SEPC := 29 * 8

  const TFRAME_FLAGS := Flags(true, true, false, false, false, false, false, false)

  /** The entry of a trap frame on page `t`: the kernel reads and writes it, user
      mode has no access. */
  predicate KernelOnly(e: Pte, t: nat) {
    e.v && e.ppn == t && e.fl.r && e.fl.w && !e.fl.x && !e.fl.u && !e.fl.g && !e.fl.cow
  }

  ghost predicate FrameAt(s: St, root: nat, v: Vpn, t: nat) {
    Sized(s) && (root, v) in Leaves(s) && KernelOnly(Leaves(s)[(root, v)], t)
  }

  /** The trap frame of a forked child: a copy of the parent's on a zeroed page,
      with 0 in register a0. */
  function ChildFrame(parent: Page): (r: Page)
    ensures forall i | 0 <= i < PAGE_SIZE :: r[i] == if 16 <= i < 24 || i >= 280 then 0 else parent[i]
  {
    Overwrite(Overwrite(ZeroPage(), 0, parent[..TFRAME_SIZE]), A0, [0, 0, 0, 0, 0, 0, 0, 0])
  }

  /** The actions that make up a fork of `parent` into the fresh pages `root`
      and `t`, with `bytes` as trap frame. */
  function ForkActs(parent: nat, t: nat, root: nat, bytes: Page): seq<C.Action> {
    [C.Alloc(t), C.Alloc(root), C.Adopt(root), C.Fork(parent, root), C.Fill(t, bytes),
     C.Map((root, TRAPFRAME), t, TFRAME_FLAGS)]
  }

  /** page_alloc of a page the task keeps for itself. */
  method TakePage(m: Memory) returns (p: Option<nat>)
    requires Settled(m.S())
    modifies m
    ensures p.None? <==> old(m.free) == []
    ensures p.None? ==> m.S() == old(m.S())
    ensures p.Some? ==>
              && p.value == old(m.free)[0] < |m.fr| && m.S() == AllocSt(old(m.S()))
              && Loose(m.S(), p.value) && Does(old(m.S()), m.S(), C.Alloc(p.value))
              && old(m.role)[p.value] == FreePage
  {
    if m.free != [] {
      AllocDoes(m.S());
      AllocOk(m.S());
    }
    p := m.PageAlloc();
  }

  lemma SkipsTrapframe(leaves: map<C.Key, Pte>, r: nat, c: nat)
    requires C.IsEmpty(leaves, c)
    ensures (c, TRAPFRAME) !in C.ForkLeaves(leaves, r, c)
  {
  }

  lemma ForkMeans(s: St, s': St, r: nat, c: nat)
    requires Does(s, s', C.Fork(r, c))
    ensures Abs(s').data == Abs(s).data && Leaves(s') == C.ForkLeaves(Leaves(s), r, c) && C.IsEmpty(Leaves(s), c)
  {
    DoesActs(s, s', C.Fork(r, c));
    ForkIsFork(Abs(s), Abs(s'), r, c);
  }

  lemma ForkIsFork(vm: C.Vm, vm': C.Vm, r: nat, c: nat)
    requires Acts(vm, vm', C.Fork(r, c))
    ensures vm'.data == vm.data && vm'.leaves == C.ForkLeaves(vm.leaves, r, c) && C.IsEmpty(vm.leaves, c)
  {
  }

  lemma ForkKeepsData(s: St, s': St, r: nat, c: nat)
    requires Does(s, s', C.Fork(r, c))
    ensures forall x :: DataAt(s', x) == DataAt(s, x)
    ensures (c, TRAPFRAME) !in Leaves(s')
  {
    ForkMeans(s, s', r, c);
    SkipsTrapframe(Leaves(s), r, c);
    forall x ensures DataAt(s', x) == DataAt(s, x) {
      assert Get(Abs(s).data, x) == DataAt(s, x) && Get(Abs(s').data, x) == DataAt(s', x);
    }
  }

  /** The tables of a forked child: those on the paths to the parent's leaves
      and to the trap frame. */
  function ForkTables(leaves: map<C.Key, Pte>, parent: nat): set<TableKey> {
    Needed(leaves, parent, END) + PathTo(TRAPFRAME)
  }

  /** The tables of `root` are `keys`. */
  ghost predicate HasExactly(s: St, root: nat, keys: set<TableKey>) {
    root < |s.fr| && forall key :: Has(s, root, key) <==> key in keys
  }

  lemma FreshDemand(s: St, leaves: map<C.Key, Pte>, r: nat, c: nat)
    requires c < |s.fr| && s.fr[c] == Zeroed
    ensures Demand(s, leaves, r, c, END) == Needed(leaves, r, END)
    ensures forall key :: !Has(s, c, key)
  {
  }

  /** What is missing for the trap frame after the copy. */
  lemma FrameTables(s: St, root: nat, leaves: map<C.Key, Pte>, parent: nat)
    requires HasExactly(s, root, Needed(leaves, parent, END))
    ensures |ForkTables(leaves, parent)| == |Needed(leaves, parent, END)| + Missing(s, root, TRAPFRAME)
  {
    var mid, low := MidKey(TRAPFRAME.i2), LowKey(TRAPFRAME.i2, TRAPFRAME.i1);
    MissingIs(s, root, TRAPFRAME);
    TwoMore(Needed(leaves, parent, END), ForkTables(leaves, parent), mid, low, Has(s, root, mid), Has(s, root, low));
  }

  /** Pages that are no tables have no part in the tables of a tree. */
  lemma PlainTables(s: St, s': St, p: nat, c: nat)
    requires Tree(s, c) && |s'.fr| == |s.fr| && p < |s.fr| && !IsTableRole(s.role[p])
    requires forall q | 0 <= q < |s.fr| && q != p :: s'.fr[q] == s.fr[q]
    ensures forall key :: Has(s', c, key) <==> Has(s, c, key)
  {
    Unfold(s);
    assert PageOk(s, c);
    forall key ensures Has(s', c, key) <==> Has(s, c, key) {
      if key.a < ENTRIES && At(s.fr[c], key.a).v {
        assert LinkOk(s, At(s.fr[c], key.a), Mid(c, key.a));
      }
    }
  }

  lemma SameMissing(s: St, s': St, c: nat, v: Vpn)
    requires c < |s.fr| && c < |s'.fr| && InRange(v) && forall key :: Has(s', c, key) <==> Has(s, c, key)
    ensures Missing(s', c, v) == Missing(s, c, v)
  {
    MissingIs(s, c, v);
    MissingIs(s', c, v);
  }

  /** The copy of the parent's tree, into the fresh page `root`. */
  method ForkTreeInto(m: Memory, parent: nat, t: nat, root: nat) returns (ok: bool, ghost s2: St, ghost s3: St)
    requires Settled(m.S()) && Tree(m.S(), parent) && |Abs(m.S()).roots| < 254
    requires Loose(m.S(), t) && Loose(m.S(), root) && t != root && m.held[root] == 1 && m.held[t] == 1
    requires m.fr[root] == Zeroed
    modifies m
    ensures ok <==> |old(m.free)| >= |Needed(Leaves(old(m.S())), parent, END)|
    ensures ok ==>
              && |m.free| == |old(m.free)| - |Needed(Leaves(old(m.S())), parent, END)|
              && HasExactly(m.S(), root, Needed(Leaves(old(m.S())), parent, END))
    ensures ok ==>
              && Inv(s2) && Inv(s3) && s2 == old(m.S()) && s3 == AdoptSt(s2, root)
              && Does(s2, s3, C.Adopt(root)) && Does(s3, m.S(), C.Fork(parent, root))
              && Tree(m.S(), parent) && Tree(m.S(), root) && m.held[root] == 1
              && Loose(m.S(), t) && m.held[t] == 1 && (root, TRAPFRAME) !in Leaves(m.S())
              && Kept(s3, m.S(), root) && Raised(m.S(), s3.rc, Leaves(s3), parent, END) && Leaves(s3) == Leaves(s2)
              && forall x | x != root :: DataAt(m.S(), x) == DataAt(s2, x)
  {
    s2 := m.S();
    AdoptDoes(s2, root);
    AdoptRoots(s2, root);
    m.role, m.dead := m.role[root := Root], m.dead[root := FIRST];
    s3 := m.S();
    FreshDemand(s3, Leaves(s3), parent, root);
    ok := TreeCopy(m, root, parent);
    if ok {
      ForkKeepsData(s3, m.S(), parent, root);
      assert KeptAt(s3, m.S(), root, t) && KeptAt(s3, m.S(), root, root);
    }
  }

  lemma AdoptRoots(s: St, p: nat)
    requires Sized(s) && p < |s.fr|
    ensures |Abs(AdoptSt(s, p)).roots| <= |Abs(s).roots| + 1
  {
    assert Abs(AdoptSt(s, p)).roots == Abs(s).roots + {p};
  }

  /** The trap frame page is written and then mapped at `v`. */
  method MapFrame(m: Memory, root: nat, v: Vpn, t: nat, bytes: Page) returns (ok: bool, ghost filled: St)
    requires Loose(m.S(), t) && m.held[t] == 1 && Tree(m.S(), root) && (root, v) !in Leaves(m.S()) && InRange(v)
    modifies m
    ensures Inv(filled) && filled == FillSt(old(m.S()), t, bytes) && Does(old(m.S()), filled, C.Fill(t, bytes))
    ensures ok <==> |old(m.free)| >= Missing(old(m.S()), root, v)
    ensures !ok && old(m.free) == [] ==> m.S() == filled
    ensures !ok && old(m.free) != [] ==> root < |m.fr| && At(m.fr[root], v.i2).v && At(m.fr[root], v.i2).ppn in m.free
    ensures !ok ==> Sized(m.S()) && |m.fr| == |old(m.fr)|
    ensures !ok ==> forall p | 0 <= p < |m.fr| && old(m.role)[p] != FreePage :: m.rc[p] == old(m.rc)[p]
    ensures ok ==>
              && Settled(m.S()) && Does(filled, m.S(), C.Map((root, v), t, TFRAME_FLAGS))
              && Tree(m.S(), root) && Grown(filled, m.S(), root) && m.held == old(m.held)[t := 0]
              && FrameAt(m.S(), root, v, t) && DataAt(m.S(), t) == Some(bytes)
  {
    FillDoes(m.S(), t, bytes);
    m.fr := m.fr[t := Bytes(bytes)];
    filled := m.S();
    MapFits(filled, root, v, t, TFRAME_FLAGS);
    PlainTables(old(m.S()), filled, t, root);
    SameMissing(old(m.S()), filled, root, v);
    Unfold(filled);
    assert Get(Leaves(filled), (root, v)) == Leaf(filled, (root, v));
    ok := VpageMap(m, root, v, t, TFRAME_FLAGS);
    if ok {
      MapDoes(filled, m.S(), root, v, t, TFRAME_FLAGS);
      GrownData(filled, m.S(), root);
    }
  }

  /** The two pages a fork starts with; if there are not two, none is taken. */
  method TwoPages(m: Memory, ghost parent: nat) returns (pages: Option<(nat, nat)>, ghost s1: St)
    requires Settled(m.S()) && Tree(m.S(), parent)
    modifies m
    ensures pages.None? <==> |old(m.free)| < 2
    ensures pages.None? ==> m.S() == old(m.S())
    ensures pages.Some? ==>
              var (t, root) := pages.value;
              && t == old(m.free)[0] && root == old(m.free)[1] && t < |m.fr| && root < |m.fr| && Inv(s1)
              && m.S() == AllocSt(AllocSt(old(m.S()))) && Started(old(m.S()), m.S(), t, root, parent)
              && |m.free| == |old(m.free)| - 2 && Leaves(m.S()) == Leaves(old(m.S()))
              && Does(old(m.S()), s1, C.Alloc(t)) && Does(s1, m.S(), C.Alloc(root))
  {
    ghost var s := m.S();
    s1 := s;
    pages := None;
    var t := TakePage(m);
    if t.None? {
      return;
    }
    s1 := m.S();
    TakeBack(s);
    var root := TakePage(m);
    if root.None? {
      m.PagePut(t.value);
      return;
    }
    SecondPage(s, t.value, root.value, parent);
    TwoAllocs(s, t.value, root.value);
    pages := Some((t.value, root.value));
  }

  lemma TakeBack(s: St)
    requires Inv(s) && s.free != []
    ensures s.free[0] < |s.fr| && AllocSt(s).rc[s.free[0]] == 1 && PutSt(AllocSt(s), s.free[0]) == s
  {
    AllocOk(s);
    Unfold(s);
    var p := s.free[0];
    assert PageOk(s, p);
    var s' := PutSt(AllocSt(s), p);
    assert s'.fr == s.fr && s'.rc == s.rc && s'.free == s.free && s'.role == s.role && s'.held == s.held;
  }

  /** `s` after the two pages are allocated. */
  ghost predicate Started(s: St, s2: St, t: nat, root: nat, parent: nat) {
    && Sized(s) && Loose(s2, t) && Loose(s2, root) && t != root && Tree(s2, parent) && |s2.fr| == |s.fr|
    && s2.held[t] == 1 && s2.held[root] == 1 && s2.fr[root] == Zeroed && Abs(s2).roots == Abs(s).roots
    && root < |s.fr| && s.role[root] == FreePage
    && forall x: nat | x < |s.fr| && s.role[x] != FreePage :: DataAt(s2, x) == DataAt(s, x)
  }

  lemma SecondPage(s: St, t: nat, root: nat, parent: nat)
    requires Settled(s) && Tree(s, parent) && |s.free| >= 2 && t == s.free[0] && root == s.free[1]
    requires t < |s.fr| && root < |s.fr|
    ensures Started(s, AllocSt(AllocSt(s)), t, root, parent)
  {
    Unfold(s);
    assert FreeSlot(s, 0) && FreeSlot(s, 1);
    AllocDoes(s);
    AllocDoes(AllocSt(s));
    AllocSame(s);
    AllocSame(AllocSt(s));
  }

  lemma AllocSame(s: St)
    requires Sized(s) && s.free != [] && s.free[0] < |s.fr| && s.role[s.free[0]] == FreePage
    ensures Abs(AllocSt(s)).roots == Abs(s).roots
    ensures forall x: nat | x < |s.fr| && s.role[x] != FreePage :: DataAt(AllocSt(s), x) == DataAt(s, x)
  {
    forall x: nat | x < |s.fr| && s.role[x] != FreePage ensures DataAt(AllocSt(s), x) == DataAt(s, x) {}
  }

  /** task_clone without CLONE_VM: the child gets a lazy copy of the parent's
      space and a trap frame of its own. It succeeds exactly if there are pages
      for the trap frame, the root and the child's tables. */
  method TaskFork(m: Memory, parent: nat, frame: nat) returns (child: Option<(nat, nat)>, ghost bytes: Page)
    requires Settled(m.S()) && Tree(m.S(), parent) && |Abs(m.S()).roots| < 254
    requires frame < |m.fr| && m.role[frame] == Data
    modifies m
    ensures bytes == ChildFrame(Content(old(m.fr)[frame]))
    ensures |old(m.free)| < 2 ==> child.None? && m.S() == old(m.S())
    ensures child.Some? <==> |old(m.free)| >= 2 + |ForkTables(Leaves(old(m.S())), parent)|
    ensures child.Some? ==>
              var (root, t) := child.value;
              && |old(m.free)| >= 2 && t == old(m.free)[0] && root == old(m.free)[1]
              && Settled(m.S()) && Tree(m.S(), parent) && Tree(m.S(), root) && m.held[root] == 1
              && Runs(old(m.S()), m.S(), ForkActs(parent, t, root, bytes))
              && Forked(old(m.S()), m.S(), parent, t, root) && FrameAt(m.S(), root, TRAPFRAME, t)
              && DataAt(m.S(), t) == Some(bytes)
  {
    ghost var s := m.S();
    bytes := ChildFrame(Content(m.fr[frame]));
    child := None;
    var pages, s1 := TwoPages(m, parent);
    if pages.None? {
      return;
    }
    var t, root := pages.value.0, pages.value.1;
    ghost var s2 := m.S();
    assert FrameOk(s, s2, frame, bytes, root);
    var ok, s3, s4, s5 := FinishFork(m, parent, frame, t, root, s, bytes);
    if ok {
      ForkRuns(s, s1, s2, s3, s4, s5, m.S(), parent, t, root, bytes);
      ForkFrame(s, s2, s3, s4, s5, m.S(), parent, t, root, bytes);
      child := Some((root, t));
    }
  }

  lemma ForkRuns(s: St, s1: St, s2: St, s3: St, s4: St, s5: St, s6: St, parent: nat, t: nat, root: nat, bytes: Page)
    requires Inv(s) && Inv(s1) && Inv(s2) && Inv(s3) && Inv(s4) && Inv(s5) && Inv(s6)
    requires Does(s, s1, C.Alloc(t)) && Does(s1, s2, C.Alloc(root)) && Does(s2, s3, C.Adopt(root))
    requires Does(s3, s4, C.Fork(parent, root)) && Does(s4, s5, C.Fill(t, bytes))
    requires Does(s5, s6, C.Map((root, TRAPFRAME), t, TFRAME_FLAGS))
    ensures Runs(s, s6, ForkActs(parent, t, root, bytes))
  {
    RunsNone(s);
    RunsMore(s, s, s1, [], C.Alloc(t));
    var a1: seq<C.Action> := [] + [C.Alloc(t)];
    RunsMore(s, s1, s2, a1, C.Alloc(root));
    var a2 := a1 + [C.Alloc(root)];
    RunsMore(s, s2, s3, a2, C.Adopt(root));
    var a3 := a2 + [C.Adopt(root)];
    RunsMore(s, s3, s4, a3, C.Fork(parent, root));
    var a4 := a3 + [C.Fork(parent, root)];
    RunsMore(s, s4, s5, a4, C.Fill(t, bytes));
    var a5 := a4 + [C.Fill(t, bytes)];
    RunsMore(s, s5, s6, a5, C.Map((root, TRAPFRAME), t, TFRAME_FLAGS));
    assert a5 + [C.Map((root, TRAPFRAME), t, TFRAME_FLAGS)] == ForkActs(parent, t, root, bytes);
  }

  /** The trap frame page of the parent is still what it was. */
  ghost predicate FrameOk(s: St, s': St, frame: nat, bytes: Page, root: nat) {
    && Sized(s) && Sized(s') && frame != root
    && DataAt(s', frame).Some? && bytes == ChildFrame(DataAt(s', frame).value)
  }

  /** The rest of a fork, once it has its two pages. */
  method FinishFork(m: Memory, parent: nat, frame: nat, t: nat, root: nat, ghost s: St, ghost bytes: Page)
    returns (ok: bool, ghost s3: St, ghost s4: St, ghost s5: St)
    requires Started(s, m.S(), t, root, parent) && |Abs(m.S()).roots| < 254 && FrameOk(s, m.S(), frame, bytes, root)
    modifies m
    ensures ok <==> |old(m.free)| >= |ForkTables(Leaves(old(m.S())), parent)|
    ensures ok ==>
              && Inv(s3) && Inv(s4) && Inv(s5)
              && Does(old(m.S()), s3, C.Adopt(root)) && Does(s3, s4, C.Fork(parent, root))
              && Does(s4, s5, C.Fill(t, bytes)) && Does(s5, m.S(), C.Map((root, TRAPFRAME), t, TFRAME_FLAGS))
    ensures ok ==> FrameOf(old(m.S()), s3, s4, s5, m.S(), parent, t, root, bytes) == OnTrack
    ensures ok ==> Settled(m.S()) && Tree(m.S(), parent) && Tree(m.S(), root) && m.held[root] == 1
    ensures ok ==> FrameAt(m.S(), root, TRAPFRAME, t) && DataAt(m.S(), t) == Some(bytes)
  {
    ghost var s2 := m.S();
    ghost var before;
    ok, before, s3 := ForkTreeInto(m, parent, t, root);
    s4, s5 := m.S(), m.S();
    if !ok {
      SubsetSize(Needed(Leaves(s2), parent, END), ForkTables(Leaves(s2), parent));
      return;
    }
    FrameTables(s4, root, Leaves(s2), parent);
    assert DataAt(s4, frame) == DataAt(s2, frame);
    DataTyped(s4, frame);
    ok, s5 := MapFrame(m, root, TRAPFRAME, t, ChildFrame(AsBytes(m.fr[frame])));
    if ok {
      assert GrownAt(s5, m.S(), root, parent);
    }
  }

  /** How the steps of a fork change the pages' roles, references and counts. */
  ghost predicate ForkFrames(s2: St, s3: St, s4: St, s5: St, s6: St, parent: nat, t: nat, root: nat, bytes: Page) {
    && Sized(s2) && root < |s2.fr| && t < |s2.fr| && s3 == AdoptSt(s2, root) && Leaves(s3) == Leaves(s2)
    && Kept(s3, s4, root) && Raised(s4, s3.rc, Leaves(s3), parent, END)
    && s5 == FillSt(s4, t, bytes) && Grown(s5, s6, root) && s6.held == s4.held[t := 0]
  }

  ghost function FrameOf(s2: St, s3: St, s4: St, s5: St, s6: St, parent: nat, t: nat, root: nat, bytes: Page): Stage {
    if ForkFrames(s2, s3, s4, s5, s6, parent, t, root, bytes) then OnTrack else Lost
  }

  /** After a fork every page in use has the role and the kernel references it
      had; the other pages in use are the child's trap frame, root and tables.
      Each global leaf copied has raised the count of its page. */
  ghost predicate Forked(s: St, s': St, parent: nat, t: nat, root: nat) {
    && Sized(s) && Sized(s') && |s'.fr| == |s.fr| && root < |s.fr| && s.role[root] == FreePage
    && forall p | 0 <= p < |s.fr| :: ForkedAt(s, s', parent, t, root, p)
  }

  ghost predicate ForkedAt(s: St, s': St, parent: nat, t: nat, root: nat, p: nat)
    requires Sized(s) && Sized(s') && |s'.fr| == |s.fr| && p < |s.fr|
  {
    if s.role[p] == FreePage then
      s'.role[p] == (if p == root then Root else if p == t then Data else FreePage) || TableOf(s'.role[p], root)
    else
      && s'.role[p] == s.role[p] && (s.role[p] == Data || s.role[p] == Root ==> s'.held[p] == s.held[p])
      && (s.role[p] == Image ==> s'.rc[p] == Plus8(s.rc[p], |Globals(Leaves(s), parent, END, p)|))
  }

  lemma TwoAllocs(s: St, t: nat, root: nat)
    requires Inv(s) && |s.free| >= 2 && t == s.free[0] && root == s.free[1]
    ensures var s2 := AllocSt(AllocSt(s));
            && t < |s.fr| && root < |s.fr| && t != root && s.role[t] == FreePage && s.role[root] == FreePage
            && Sized(s2) && |s2.fr| == |s.fr| && Leaves(s2) == Leaves(s)
            && s2.role == s.role[t := Data][root := Data] && s2.held == s.held[t := 1][root := 1]
            && forall p | 0 <= p < |s.fr| && s.role[p] != FreePage :: s2.rc[p] == s.rc[p]
  {
    Unfold(s);
    assert FreeSlot(s, 0) && FreeSlot(s, 1);
    AllocOk(s);
    AllocOk(AllocSt(s));
  }

  lemma ForkFrame(s: St, s2: St, s3: St, s4: St, s5: St, s6: St, parent: nat, t: nat, root: nat, bytes: Page)
    requires Inv(s) && |s.free| >= 2 && t == s.free[0] && root == s.free[1] && s2 == AllocSt(AllocSt(s))
    requires FrameOf(s2, s3, s4, s5, s6, parent, t, root, bytes) == OnTrack
    ensures Forked(s, s6, parent, t, root)
  {
    TwoAllocs(s, t, root);
    forall p | 0 <= p < |s.fr| ensures ForkedAt(s, s6, parent, t, root, p) {
      assert KeptAt(s3, s4, root, p) && GrownAt(s5, s6, root, p);
    }
  }

  lemma DataTyped(s: St, p: nat)
    requires Inv(s) && DataAt(s, p).Some?
    ensures s.fr[p].Zeroed? || s.fr[p].Bytes?
  {
    Unfold(s);
    assert PageOk(s, p);
  }

  // ------------------------------------------------- what a fork means for the programs

  /** After a fork the child reads, and may write, at every page but the trap
      frame what the parent did; the parent sees no change, and neither does
      any other space; the child's trap frame holds `bytes`. */
  lemma ForkedImage(vm: C.Vm, parent: nat, t: nat, root: nat, bytes: Page, k: C.Key)
    requires C.Runnable(vm, ForkActs(parent, t, root, bytes))
    ensures var vm' := C.Run(vm, ForkActs(parent, t, root, bytes));
            && C.Inv(vm')
            && (k.0 != root ==> C.Image(vm', k) == C.Image(vm, k))
            && (k.0 == root && k.1 != TRAPFRAME ==> C.Image(vm', k) == C.Image(vm, (parent, k.1)))
            && (k == (root, TRAPFRAME) ==> C.Image(vm', k) == Some(C.OwnPage(bytes, C.PermOf(TFRAME_FLAGS))))
  {
    var acts := ForkActs(parent, t, root, bytes);
    var s := C.View(vm);
    C.RunRefines(vm, s, acts);
    var vm' := C.Run(vm, acts);
    assert Get(C.RunSimple(s, acts).pages, k) == C.Image(vm', k);
    assert Get(s.pages, k) == C.Image(vm, k) && Get(s.pages, (parent, k.1)) == C.Image(vm, (parent, k.1));
    assert C.Enabled(C.Apply(vm, C.Alloc(t)), acts[1..][0]);
    SimpleFork(s, parent, t, root, bytes);
    NewSpaceEmpty(vm, root);
  }

  lemma SimpleFork(s: C.Simple, parent: nat, t: nat, root: nat, bytes: Page)
    requires t != root
    ensures C.RunSimple(s, ForkActs(parent, t, root, bytes)).pages ==
              C.CopyAll(s.pages, parent, root)[(root, TRAPFRAME) := C.OwnPage(bytes, C.PermOf(TFRAME_FLAGS))]
  {
    var acts := ForkActs(parent, t, root, bytes);
    assert acts[1..] == [acts[1], acts[2], acts[3], acts[4], acts[5]];
    var s1 := C.ApplySimple(s, acts[0]);
    var s2 := C.ApplySimple(s1, acts[1]);
    var s3 := C.ApplySimple(s2, acts[2]);
    var s4 := C.ApplySimple(s3, acts[3]);
    var s5 := C.ApplySimple(s4, acts[4]);
    var s6 := C.ApplySimple(s5, acts[5]);
    assert acts[1..][1..] == acts[2..] && acts[2..][1..] == acts[3..] && acts[3..][1..] == acts[4..];
    assert acts[4..][1..] == acts[5..] && acts[5..][1..] == [];
    assert C.RunSimple(s5, acts[5..]) == s6;
    assert C.RunSimple(s4, acts[4..]) == s6;
    assert C.RunSimple(s3, acts[3..]) == s6;
    assert C.RunSimple(s2, acts[2..]) == s6;
    assert C.RunSimple(s1, acts[1..]) == s6;
  }

  /** A page that is no root yet has no leaves. */
  lemma NewSpaceEmpty(vm: C.Vm, root: nat)
    requires C.Inv(vm) && root !in vm.roots
    ensures C.IsEmpty(vm.leaves, root)
  {
  }

  // ---------------------------------------------------------------------- task_destroy

  /** A root with other users only loses one reference. */
  lemma PutRoot(s: St, root: nat)
    requires Settled(s) && Tree(s, root) && s.rc[root] == s.held[root] > 1
    ensures Settled(PutSt(s, root)) && Abs(PutSt(s, root)) == Abs(s) && Tree(PutSt(s, root), root)
    ensures PutSt(s, root).held == s.held[root := s.held[root] - 1]
  {
    Unfold(s);
    assert CountOk(s, root);
    PutOk(s, root);
    var s' := PutSt(s, root);
    forall k ensures QuietAt(s', k) {
      assert QuietAt(s, k);
      LeafFacts(s, k);
    }
    PutData(s, root);
    forall x ensures Get(Abs(s).data, x) == DataAt(s', x) {
      assert Get(Abs(s).data, x) == DataAt(s, x);
    }
    AbsIs(s', Abs(s));
  }

  lemma RunsSame(s: St, t: St, s': St, acts: seq<C.Action>)
    requires Runs(s, t, acts) && Sized(s') && Abs(s') == Abs(t)
    ensures Runs(s, s', acts)
  {
    RunsRan(s, t, acts);
  }

  /** What destroying a task does: its trap frame goes, and the address space
      with the last task that uses it. */
  function DestroyActs(root: nat, v: Vpn, framed: bool, last: bool): seq<C.Action> {
    (if framed then [C.Unmap((root, v))] else []) + (if last then [C.Free(root)] else [])
  }

  /** The memory part of task_destroy. */
  method TaskDestroy(m: Memory, root: nat, v: Vpn)
    requires Settled(m.S()) && Tree(m.S(), root) && InRange(v)
    requires (root, v) in Leaves(m.S()) ==> !Leaves(m.S())[(root, v)].fl.g
    modifies m
    ensures Settled(m.S())
    ensures Runs(old(m.S()), m.S(),
                 DestroyActs(root, v, (root, v) in Leaves(old(m.S())), old(m.held)[root] == 1))
    ensures old(m.held)[root] > 1 ==> Tree(m.S(), root) && m.held == old(m.held)[root := old(m.held)[root] - 1]
    ensures old(m.held)[root] == 1 ==> F.Cleared(old(m.S()), m.S(), root)
    ensures Gone(old(m.S()), m.S(), root, v, old(m.held)[root] == 1)
  {
    ghost var s := m.S();
    RootCount(s, root);
    var framed := UnmapFrame(m, root, v);
    DestroyActsLast(root, v, framed);
    DropRoot(m, root, s, DestroyActs(root, v, framed, false));
    IsGone(s, m.S(), root, v, framed, s.held[root] == 1);
  }

  /** The leaf at `v` is gone from the space `root`; with the last task the whole
      space is. Every other leaf is there, and every other space. (Folded.) */
  ghost predicate Gone(s: St, s': St, root: nat, v: Vpn, last: bool) {
    && Sized(s) && Sized(s')
    && forall open {:trigger Opened(s, open), Opened(s', open)} ::
         Opened(s, open) && Opened(s', open) ==> GoneFrom(Abs(s), Abs(s'), root, v, last)
  }

  ghost predicate GoneFrom(vm: C.Vm, vm': C.Vm, root: nat, v: Vpn, last: bool) {
    && vm'.roots == (if last then vm.roots - {root} else vm.roots)
    && forall k ::
         Get(vm'.leaves, k) == if k == (root, v) || (last && k.0 == root) then None else Get(vm.leaves, k)
  }

  lemma IsGone(s: St, s': St, root: nat, v: Vpn, framed: bool, last: bool)
    requires Runs(s, s', DestroyActs(root, v, framed, last)) && (framed <==> (root, v) in Leaves(s))
    ensures Gone(s, s', root, v, last)
  {
    RunsRan(s, s', DestroyActs(root, v, framed, last));
    Destroyed(Abs(s), root, v, framed, last);
  }

  /** The leaves and the spaces there are after a task was destroyed. */
  lemma Destroyed(vm: C.Vm, root: nat, v: Vpn, framed: bool, last: bool)
    requires C.Runnable(vm, DestroyActs(root, v, framed, last)) && (framed <==> (root, v) in vm.leaves)
    ensures GoneFrom(vm, C.Run(vm, DestroyActs(root, v, framed, last)), root, v, last)
  {
    var acts := DestroyActs(root, v, framed, last);
    if framed {
      RunTail(vm, acts);
      var vm1 := C.Apply(vm, acts[0]);
      assert acts[1..] == if last then [C.Free(root)] else [];
      if last {
        RunTail(vm1, acts[1..]);
        assert acts[1..][1..] == [];
      }
    } else if last {
      RunTail(vm, acts);
      assert acts[1..] == [];
    }
  }

  lemma DestroyActsLast(root: nat, v: Vpn, framed: bool)
    ensures DestroyActs(root, v, framed, false) + [C.Free(root)] == DestroyActs(root, v, framed, true)
  {
  }

  method UnmapFrame(m: Memory, root: nat, v: Vpn) returns (framed: bool)
    requires Settled(m.S()) && Tree(m.S(), root) && InRange(v)
    requires (root, v) in Leaves(m.S()) ==> !Leaves(m.S())[(root, v)].fl.g
    modifies m
    ensures framed <==> (root, v) in Leaves(old(m.S()))
    ensures Settled(m.S()) && Tree(m.S(), root) && m.held == old(m.held)
    ensures Runs(old(m.S()), m.S(), DestroyActs(root, v, framed, false)) && F.Cleared(old(m.S()), m.S(), root)
  {
    ghost var s := m.S();
    framed := VpageUnmap(m, root, v);
    UnmapClears(s, m.S(), root, v, framed);
    UnmapRuns(s, m.S(), root, v, framed);
  }

  lemma UnmapRuns(s: St, t: St, root: nat, v: Vpn, framed: bool)
    requires Inv(s) && Inv(t) && (if framed then Does(s, t, C.Unmap((root, v))) else t == s)
    ensures Runs(s, t, DestroyActs(root, v, framed, false))
  {
    RunsNone(s);
    if framed {
      RunsMore(s, s, t, [], C.Unmap((root, v)));
      assert [] + [C.Unmap((root, v))] == DestroyActs(root, v, framed, false);
    }
  }

  lemma UnmapClears(s: St, t: St, root: nat, v: Vpn, framed: bool)
    requires Sized(s) && (!framed ==> t == s)
    requires framed ==> (root, v) in Leaves(s) && exists last :: PageLost(s, t, Leaves(s)[(root, v)].ppn, last)
    ensures F.Cleared(s, t, root)
  {
    if framed {
      var last :| PageLost(s, t, Leaves(s)[(root, v)].ppn, last);
      F.LostCleared(s, t, Leaves(s)[(root, v)].ppn, last, root);
    } else {
      forall p | 0 <= p < |s.fr| ensures F.ClearedAt(s, t, root, p) {}
    }
  }

  /** The address space goes with the last task that uses it. */
  method DropRoot(m: Memory, root: nat, ghost s: St, ghost acts: seq<C.Action>)
    requires Settled(m.S()) && Tree(m.S(), root) && Runs(s, m.S(), acts) && F.Cleared(s, m.S(), root)
    modifies m
    ensures Settled(m.S())
    ensures old(m.held)[root] == 1 ==> Runs(s, m.S(), acts + [C.Free(root)]) && F.Cleared(s, m.S(), root)
    ensures old(m.held)[root] > 1 ==>
              Runs(s, m.S(), acts) && Tree(m.S(), root) && m.held == old(m.held)[root := old(m.held)[root] - 1]
  {
    ghost var t := m.S();
    RootCount(t, root);
    if m.rc[root] == 1 {
      F.TreeFree(m, root);
      F.SparedCleared(t, m.S(), root);
      F.ClearedTrans(s, t, m.S(), root);
      RunsMore(s, t, m.S(), acts, C.Free(root));
    } else {
      PutRoot(t, root);
      RunsSame(s, t, PutSt(t, root), acts);
      m.PagePut(root);
    }
  }

  lemma RootCount(s: St, root: nat)
    requires Tree(s, root)
    ensures s.rc[root] == s.held[root] > 0
  {
    Unfold(s);
    assert CountOk(s, root);
  }

  // ---------------------------------------------------------------- threads (CLONE_VM)

  lemma GetRoot(s: St, root: nat)
    requires Settled(s) && Tree(s, root) && s.rc[root] < 255
    ensures var s' := GetSt(s, root);
            && Settled(s') && Abs(s') == Abs(s) && Tree(s', root) && s'.rc[root] == s.rc[root] + 1
            && PutSt(s', root) == s
  {
    RootCount(s, root);
    GetOk(s, root);
    var s' := GetSt(s, root);
    forall k ensures QuietAt(s', k) {
      assert QuietAt(s, k);
      LeafFacts(s, k);
    }
    forall x ensures Get(Abs(s).data, x) == DataAt(s', x) {
      assert Get(Abs(s).data, x) == DataAt(s, x);
    }
    AbsIs(s', Abs(s));
    assert PutSt(s', root).held == s.held && PutSt(s', root).rc == s.rc;
  }

  /** The trap frame of a new thread: stack pointer, argument and entry point
      on a zeroed page. */
  function ThreadFrame(entry: seq<Byte>, stack: seq<Byte>, arg: seq<Byte>): (r: Page)
    requires |entry| == 8 && |stack| == 8 && |arg| == 8
    ensures forall i | 0 <= i < 8 :: r[i] == stack[i] && r[16 + i] == arg[i] && r[232 + i] == entry[i]
    ensures forall i | 8 <= i < PAGE_SIZE && !(16 <= i < 24) && !(232 <= i < 240) :: r[i] == 0
  {
    var a := Overwrite(ZeroPage(), 0, stack);
    assert forall i | 8 <= i < PAGE_SIZE :: a[i] == 0;
    var b := Overwrite(a, SEPC, entry);
    assert forall i | 0 <= i < PAGE_SIZE && !(232 <= i < 240) :: b[i] == a[i];
    Overwrite(b, A0, arg)
  }

  function ThreadActs(root: nat, v: Vpn, t: nat, bytes: Page): seq<C.Action> {
    [C.Alloc(t), C.Fill(t, bytes), C.Map((root, v), t, TFRAME_FLAGS)]
  }

  /** The page for the trap frame, and a reference on the shared root. */
  method ShareRoot(m: Memory, root: nat, ghost v: Vpn) returns (t: Option<nat>, ghost s1: St)
    requires Settled(m.S()) && Tree(m.S(), root) && m.held[root] < 255 && InRange(v)
    modifies m
    ensures t.None? <==> old(m.free) == []
    ensures t.None? ==> m.S() == old(m.S())
    ensures t.Some? ==>
              && Inv(m.S()) && Inv(s1) && Does(old(m.S()), s1, C.Alloc(t.value)) && Abs(m.S()) == Abs(s1)
              && Loose(m.S(), t.value) && Tree(m.S(), root) && m.held[t.value] == 1 && t.value != root
              && Leaves(m.S()) == Leaves(old(m.S())) && m.held[root] == old(m.held)[root] + 1
              && m.rc[root] > 1 && m.rc[t.value] == 1 && PutSt(m.S(), root) == s1
              && s1.rc[t.value] == 1 && PutSt(s1, t.value) == old(m.S())
              && m.free == old(m.free)[1..] && Missing(m.S(), root, v) == Missing(old(m.S()), root, v)
  {
    ghost var s := m.S();
    s1 := s;
    t := TakePage(m);
    if t.Some? {
      s1 := m.S();
      TakeBack(s);
      AllocOk(s);
      RootCount(s1, root);
      GetRoot(s1, root);
      PlainTables(s, s1, t.value, root);
      m.PageGet(root);
      SameMissing(s, m.S(), root, v);
    }
  }

  /** task_clone with CLONE_VM: the thread shares the space, so only its trap
      frame is new. It fails without an entry point, a stack or enough pages, and
      then nothing is left of it, unless vpage_map ran dry between two tables. */
  method TaskThread(m: Memory, root: nat, v: Vpn, start: Option<Page>) returns (t: Option<nat>)
    requires Settled(m.S()) && Tree(m.S(), root) && m.held[root] < 255 && InRange(v) && (root, v) !in Leaves(m.S())
    modifies m
    ensures t.Some? <==> start.Some? && |old(m.free)| >= 1 + Missing(old(m.S()), root, v)
    ensures t.None? && (start.None? || |old(m.free)| <= 1) ==> m.S() == old(m.S())
    ensures t.None? && start.Some? && |old(m.free)| > 1 ==>
              root < |m.fr| && At(m.fr[root], v.i2).v && At(m.fr[root], v.i2).ppn in m.free
    ensures t.Some? ==>
              && start.Some? && Settled(m.S()) && Tree(m.S(), root) && m.held[root] == old(m.held)[root] + 1
              && Runs(old(m.S()), m.S(), ThreadActs(root, v, t.value, start.value))
              && FrameAt(m.S(), root, v, t.value) && DataAt(m.S(), t.value) == Some(start.value)
              && forall k | k != (root, v) :: Get(Leaves(m.S()), k) == Get(Leaves(old(m.S())), k)
  {
    ghost var s := m.S();
    ghost var s1;
    t, s1 := ShareRoot(m, root, v);
    if t.None? {
      return;
    }
    if start.None? {
      DropThread(m, root, t.value);
      return None;
    }
    ghost var s2 := m.S();
    var ok, s3 := MapFrame(m, root, v, t.value, start.value);
    if !ok {
      DropThread(m, root, t.value);
      PutFilled(s2, root, t.value, start.value);
      return None;
    }
    ThreadRuns(s, s1, s2, s3, m.S(), root, v, t.value, start.value);
    RunsRan(s, m.S(), ThreadActs(root, v, t.value, start.value));
    Threaded(Abs(s), root, v, t.value, start.value);
    assert Get(Abs(m.S()).data, t.value) == DataAt(m.S(), t.value);
  }

  /** What a new thread changes. */
  lemma Threaded(vm: C.Vm, root: nat, v: Vpn, t: nat, bytes: Page)
    requires C.Runnable(vm, ThreadActs(root, v, t, bytes))
    ensures var vm' := C.Run(vm, ThreadActs(root, v, t, bytes));
            && Get(vm'.data, t) == Some(bytes) && (root, v) in vm'.leaves && vm'.leaves[(root, v)].ppn == t
            && forall k | k != (root, v) :: Get(vm'.leaves, k) == Get(vm.leaves, k)
  {
    var acts := ThreadActs(root, v, t, bytes);
    RunTail(vm, acts);
    var v1 := C.Apply(vm, acts[0]);
    RunTail(v1, acts[1..]);
    var v2 := C.Apply(v1, acts[1]);
    assert acts[1..][1..] == acts[2..];
    RunTail(v2, acts[2..]);
    assert acts[2..][1..] == [];
  }

  /** The clean-up of task_clone with CLONE_VM. */
  method DropThread(m: Memory, root: nat, t: nat)
    requires Sized(m.S()) && root < |m.fr| && t < |m.fr| && root != t && m.rc[root] > 1 && m.rc[t] == 1
    modifies m
    ensures m.S() == PutSt(PutSt(old(m.S()), root), t)
    ensures m.fr[root] == old(m.fr)[root] && m.free == [t] + old(m.free)
  {
    m.PagePut(root);
    m.PagePut(t);
  }

  /** Putting the last reference drops the bytes written meanwhile. */
  lemma PutFilled(s: St, root: nat, t: nat, bytes: Page)
    requires Sized(s) && root < |s.fr| && t < |s.fr| && root != t && s.rc[root] > 1 && s.rc[t] == 1
    ensures PutSt(PutSt(FillSt(s, t, bytes), root), t) == PutSt(PutSt(s, root), t)
  {
  }

  lemma ThreadRuns(s: St, s1: St, s2: St, s3: St, s4: St, root: nat, v: Vpn, t: nat, bytes: Page)
    requires Inv(s) && Inv(s1) && Inv(s2) && Inv(s3) && Inv(s4)
    requires Does(s, s1, C.Alloc(t)) && Abs(s2) == Abs(s1) && Does(s2, s3, C.Fill(t, bytes))
    requires Does(s3, s4, C.Map((root, v), t, TFRAME_FLAGS))
    ensures Runs(s, s4, ThreadActs(root, v, t, bytes))
  {
    RunsNone(s);
    RunsMore(s, s, s1, [], C.Alloc(t));
    var a1: seq<C.Action> := [] + [C.Alloc(t)];
    RunsSame(s, s1, s2, a1);
    RunsMore(s, s2, s3, a1, C.Fill(t, bytes));
    var a2 := a1 + [C.Fill(t, bytes)];
    RunsMore(s, s3, s4, a2, C.Map((root, v), t, TFRAME_FLAGS));
    assert a2 + [C.Map((root, v), t, TFRAME_FLAGS)] == ThreadActs(root, v, t, bytes);
  }

  lemma FrameStays(s: St, s': St, acts: seq<C.Action>, root: nat, v: Vpn, t: nat)
    requires Runs(s, s', acts) && FrameAt(s, root, v, t) && P.Keeps(acts, (root, v))
    ensures (root, v) in Leaves(s') && !Leaves(s')[(root, v)].fl.u
    ensures v == TRAPFRAME ==> FrameAt(s', root, v, t)
  {
    RunsRan(s, s', acts);
    P.RunPerm(Abs(s), acts, (root, v));
  }

  /** Over every run, until the frame is unmapped: what a user pointer to a trap
      frame is good for. It cannot be read through, nor written through. */
  method FrameClosed(m: Memory, root: nat, v: Vpn, t: nat, off: nat, bs: seq<Byte>, ghost s: St,
                     ghost acts: seq<C.Action>)
    returns (bytes: Option<seq<Byte>>, ok: bool)
    requires Settled(m.S()) && Tree(m.S(), root) && InRange(v) && off + |bs| <= PAGE_SIZE
    requires Inv(s) && Runs(s, m.S(), acts) && FrameAt(s, root, v, t) && P.Keeps(acts, (root, v))
    modifies m
    ensures bytes.None? && !ok
    ensures v == TRAPFRAME ==> m.S() == old(m.S()) && FrameAt(m.S(), root, v, t)
  {
    FrameStays(s, m.S(), acts, root, v, t);
    bytes := CopyIn(m, root, v, off, |bs|);
    ok := CopyOut(m, root, v, off, bs);
  }

  // ------------------------------------------------------------- fork and destroy together

  /** The flat machine during a fork that is followed by the destruction of
      the child. */
  lemma ForkDestroySteps(vm: C.Vm, parent: nat, t: nat, root: nat, bytes: Page)
    requires C.Inv(vm) && t !in vm.data && t !in vm.roots && root !in vm.data && root !in vm.roots && t != root
    requires parent in vm.roots
    ensures var w := C.Vm(vm.roots + {root}, vm.leaves, vm.data);
            && C.Inv(w) && C.Enabled(w, C.Fork(parent, root))
            && var forked := C.Vm(w.roots, C.ForkLeaves(vm.leaves, parent, root), vm.data[t := bytes]);
            && C.Inv(forked) && C.Unmapped(forked.leaves, t) && (root, TRAPFRAME) !in forked.leaves
  {
    var w := C.Vm(vm.roots + {root}, vm.leaves, vm.data);
    NewSpaceEmpty(vm, root);
    SkipsTrapframe(vm.leaves, parent, root);
    C.ForkKeepsInv(w, parent, root, END);
    var leaves := C.ForkLeaves(vm.leaves, parent, root);
    forall k | k in leaves ensures leaves[k].ppn != t {
      assert leaves[k].ppn in vm.data;
    }
  }

  /** Mapping the fresh page `t` and unmapping it again. */
  lemma MapUnmap(vm: C.Vm, k: C.Key, t: nat)
    requires C.Inv(vm) && C.Unmapped(vm.leaves, t) && k !in vm.leaves && t in vm.data && k.0 in vm.roots && InRange(k.1)
    ensures C.Enabled(vm, C.Map(k, t, TFRAME_FLAGS))
    ensures var mapped := C.Apply(vm, C.Map(k, t, TFRAME_FLAGS));
            && C.Inv(mapped) && C.Enabled(mapped, C.Unmap(k))
            && C.Apply(mapped, C.Unmap(k)) == C.Vm(vm.roots, vm.leaves, vm.data - {t})
  {
    C.ApplyRefines(vm, C.View(vm), C.Map(k, t, TFRAME_FLAGS));
    var mapped := C.Apply(vm, C.Map(k, t, TFRAME_FLAGS));
    assert mapped.leaves - {k} == vm.leaves;
    C.UnmapIs(mapped, k, true, vm.data - {t});
  }

  /** A child that is forked and destroyed leaves no trace: the same pages are
      in use with the same content, and every page has the counted leaves it
      had before. */
  lemma ForkDestroyRestores(vm: C.Vm, parent: nat, t: nat, root: nat, bytes: Page)
    requires C.Runnable(vm, ForkActs(parent, t, root, bytes))
    ensures var forked := C.Run(vm, ForkActs(parent, t, root, bytes));
            && C.Runnable(forked, DestroyActs(root, TRAPFRAME, true, true))
            && var end := C.Run(forked, DestroyActs(root, TRAPFRAME, true, true));
            && end.roots == vm.roots && end.data == vm.data
            && forall p :: C.Holders(end.leaves, p) == C.Holders(vm.leaves, p)
  {
    ForkRun(vm, parent, t, root, bytes);
    ForkDestroySteps(vm, parent, t, root, bytes);
    var w := C.Vm(vm.roots + {root}, vm.leaves, vm.data);
    var filled := C.Vm(w.roots, C.ForkLeaves(vm.leaves, parent, root), vm.data[t := bytes]);
    MapUnmap(filled, (root, TRAPFRAME), t);
    assert vm.data[t := bytes] - {t} == vm.data;
    C.ForkFreeRestoresCounts(w, parent, root);
    DestroyRun(C.Run(vm, ForkActs(parent, t, root, bytes)), C.Apply(w, C.Fork(parent, root)), root);
  }

  lemma DestroyRun(vm: C.Vm, mid: C.Vm, root: nat)
    requires C.Inv(vm) && C.Enabled(vm, C.Unmap((root, TRAPFRAME))) && mid == C.Apply(vm, C.Unmap((root, TRAPFRAME)))
    requires C.Inv(mid) && root in mid.roots
    ensures C.Runnable(vm, DestroyActs(root, TRAPFRAME, true, true))
    ensures C.Run(vm, DestroyActs(root, TRAPFRAME, true, true)) == C.Apply(mid, C.Free(root))
  {
    var acts := DestroyActs(root, TRAPFRAME, true, true);
    C.ApplyRefines(mid, C.View(mid), C.Free(root));
    assert acts[1..] == [C.Free(root)] && acts[1..][1..] == [];
    assert C.Runnable(C.Apply(mid, C.Free(root)), []);
    assert C.Runnable(mid, acts[1..]);
    assert C.Run(mid, acts[1..]) == C.Apply(mid, C.Free(root));
  }

  /** The run of a fork, action by action. */
  lemma ForkRun(vm: C.Vm, parent: nat, t: nat, root: nat, bytes: Page)
    requires C.Runnable(vm, ForkActs(parent, t, root, bytes))
    ensures C.Inv(vm) && t !in vm.data && t !in vm.roots && root !in vm.data && root !in vm.roots && t != root
    ensures parent in vm.roots
    ensures var filled := C.Vm(vm.roots + {root}, C.ForkLeaves(vm.leaves, parent, root), vm.data[t := bytes]);
            && C.Enabled(filled, C.Map((root, TRAPFRAME), t, TFRAME_FLAGS)) && C.Inv(filled)
            && C.Run(vm, ForkActs(parent, t, root, bytes)) == C.Apply(filled, C.Map((root, TRAPFRAME), t, TFRAME_FLAGS))
  {
    var acts := ForkActs(parent, t, root, bytes);
    RunTail(vm, acts);
    var v1 := C.Apply(vm, acts[0]);
    RunTail(v1, acts[1..]);
    var v2 := C.Apply(v1, acts[1]);
    assert acts[1..][1..] == acts[2..];
    RunTail(v2, acts[2..]);
    var v3 := C.Apply(v2, acts[2]);
    assert acts[2..][1..] == acts[3..];
    ForkRunRest(vm, v3, parent, t, root, bytes);
  }

  lemma RunTail(vm: C.Vm, acts: seq<C.Action>)
    requires C.Runnable(vm, acts) && acts != []
    ensures C.Inv(vm) && C.Enabled(vm, acts[0]) && C.Runnable(C.Apply(vm, acts[0]), acts[1..])
    ensures C.Run(vm, acts) == C.Run(C.Apply(vm, acts[0]), acts[1..])
  {
  }

  lemma ForkRunRest(vm: C.Vm, v3: C.Vm, parent: nat, t: nat, root: nat, bytes: Page)
    requires C.Inv(vm) && t !in vm.data && t !in vm.roots && root !in vm.data && root !in vm.roots && t != root
    requires v3.roots == vm.roots + {root} && v3.leaves == vm.leaves && v3.data == vm.data[t := ZeroPage()]
    requires C.Runnable(v3, ForkActs(parent, t, root, bytes)[3..])
    ensures parent in vm.roots
    ensures var filled := C.Vm(vm.roots + {root}, C.ForkLeaves(vm.leaves, parent, root), vm.data[t := bytes]);
            && C.Enabled(filled, C.Map((root, TRAPFRAME), t, TFRAME_FLAGS)) && C.Inv(filled)
            && C.Run(v3, ForkActs(parent, t, root, bytes)[3..]) ==
               C.Apply(filled, C.Map((root, TRAPFRAME), t, TFRAME_FLAGS))
  {
    var acts := ForkActs(parent, t, root, bytes);
    var filled := C.Vm(vm.roots + {root}, C.ForkLeaves(vm.leaves, parent, root), vm.data[t := bytes]);
    ForkAndFill(v3, filled, parent, t, root, bytes);
    assert acts[5..] == [C.Map((root, TRAPFRAME), t, TFRAME_FLAGS)];
    RunTail(filled, acts[5..]);
    assert acts[5..][1..] == [];
  }

  /** The fourth and fifth of the actions. */
  lemma ForkAndFill(v3: C.Vm, v5: C.Vm, parent: nat, t: nat, root: nat, bytes: Page)
    requires C.Runnable(v3, ForkActs(parent, t, root, bytes)[3..])
    requires v5 == C.Vm(v3.roots, C.ForkLeaves(v3.leaves, parent, root), v3.data[t := bytes])
    ensures parent in v3.roots && parent != root && C.Runnable(v5, ForkActs(parent, t, root, bytes)[5..])
    ensures C.Run(v3, ForkActs(parent, t, root, bytes)[3..]) == C.Run(v5, ForkActs(parent, t, root, bytes)[5..])
  {
    var acts := ForkActs(parent, t, root, bytes);
    RunTail(v3, acts[3..]);
    assert acts[3..][1..] == acts[4..];
    RunTail(C.Apply(v3, acts[3]), acts[4..]);
    assert acts[4..][1..] == acts[5..];
  }

  // ------------------------------------------------- what a fork leaves in the counts

  /** The roles after a fork and the end of the child. */
  lemma RolesRestored(s: St, s1: St, s2: St, parent: nat, t: nat, root: nat, p: nat)
    requires Inv(s) && Inv(s2) && Forked(s, s1, parent, t, root) && F.Cleared(s1, s2, root) && p < |s.fr|
    requires Abs(s2).roots == Abs(s).roots && Abs(s2).data.Keys == Abs(s).data.Keys
    ensures s2.role[p] == s.role[p] && (s.role[p] == Data || s.role[p] == Root ==> s2.held[p] == s.held[p])
  {
    Unfold(s);
    Unfold(s2);
    assert ForkedAt(s, s1, parent, t, root, p) && F.ClearedAt(s1, s2, root, p);
    assert PageOk(s, p) && PageOk(s2, p);
    assert root in Abs(s2).roots <==> root in Abs(s).roots;
    assert p in Abs(s2).roots <==> p in Abs(s).roots;
    assert Get(Abs(s2).data, p) == DataAt(s2, p) && Get(Abs(s).data, p) == DataAt(s, p);
    assert p in Abs(s2).data <==> p in Abs(s).data;
  }

  lemma CountRestored(s: St, s1: St, s2: St, parent: nat, t: nat, root: nat, p: nat)
    requires Inv(s) && Inv(s2) && Forked(s, s1, parent, t, root) && F.Cleared(s1, s2, root) && p < |s.fr|
    requires Abs(s2).roots == Abs(s).roots && Abs(s2).data.Keys == Abs(s).data.Keys
    requires C.Holders(Leaves(s2), p) == C.Holders(Leaves(s), p)
    ensures s2.rc[p] == if s.role[p] == Image then Plus8(s.rc[p], |Globals(Leaves(s), parent, END, p)|) else s.rc[p]
    ensures p in s2.free <==> p in s.free
  {
    RolesRestored(s, s1, s2, parent, t, root, p);
    SameCount(s, s2, p);
    assert ForkedAt(s, s1, parent, t, root, p) && F.ClearedAt(s1, s2, root, p);
  }

  /** The invariant leaves one count only for a page of a given role, with given
      leaves and kernel references. */
  lemma SameCount(s: St, s': St, p: nat)
    requires Inv(s) && Inv(s') && p < |s.fr| && |s'.fr| == |s.fr| && s'.role[p] == s.role[p]
    requires s.role[p] == Data || s.role[p] == Root ==> s'.held[p] == s.held[p]
    requires C.Holders(Leaves(s'), p) == C.Holders(Leaves(s), p)
    ensures s.role[p] != Image ==> s'.rc[p] == s.rc[p]
    ensures p in s'.free <==> p in s.free
  {
    FreeIsFree(s, p);
    FreeIsFree(s', p);
    CountIs(s, p);
    CountIs(s', p);
  }

  lemma CountIs(s: St, p: nat)
    requires Inv(s) && p < |s.fr|
    ensures CountOk(s, p)
  {
    Unfold(s);
    assert CountOk(s, p);
  }

  lemma FreeIsFree(s: St, p: nat)
    requires Inv(s) && p < |s.fr|
    ensures p in s.free <==> s.role[p] == FreePage
  {
    Unfold(s);
    assert CountOk(s, p);
    if i :| 0 <= i < |s.free| && s.free[i] == p {
      assert FreeSlot(s, i);
    }
  }

  /** Every count is what it was, and the same pages are free. The one
      exception are pages of the kernel image: each global leaf that the parent
      has on such a page raised its count, an 8-bit number, for good. */
  ghost predicate CountsRestored(s: St, s': St, parent: nat) {
    && Sized(s) && Sized(s') && |s'.fr| == |s.fr|
    && forall p | 0 <= p < |s.fr| ::
         && s'.rc[p] == (if s.role[p] == Image then Plus8(s.rc[p], |Globals(Leaves(s), parent, END, p)|) else s.rc[p])
         && (p in s'.free <==> p in s.free)
  }

  lemma ForkDestroyCounts(s: St, s1: St, s2: St, parent: nat, t: nat, root: nat, bytes: Page)
    requires Inv(s) && Inv(s2) && Forked(s, s1, parent, t, root) && F.Cleared(s1, s2, root)
    requires Runs(s, s1, ForkActs(parent, t, root, bytes))
    requires Runs(s1, s2, DestroyActs(root, TRAPFRAME, true, true))
    ensures CountsRestored(s, s2, parent)
  {
    RunsRan(s, s1, ForkActs(parent, t, root, bytes));
    RunsRan(s1, s2, DestroyActs(root, TRAPFRAME, true, true));
    ForkDestroyRestores(Abs(s), parent, t, root, bytes);
    forall p | 0 <= p < |s.fr|
      ensures s2.rc[p] == if s.role[p] == Image then Plus8(s.rc[p], |Globals(Leaves(s), parent, END, p)|) else s.rc[p]
      ensures p in s2.free <==> p in s.free
    {
      CountRestored(s, s1, s2, parent, t, root, p);
    }
  }

  /** task_clone and, when it succeeds, task_destroy of the child. */
  method ForkAndDestroy(m: Memory, parent: nat, frame: nat) returns (ok: bool)
    requires Settled(m.S()) && Tree(m.S(), parent) && |Abs(m.S()).roots| < 254
    requires frame < |m.fr| && m.role[frame] == Data
    modifies m
    ensures ok <==> |old(m.free)| >= 2 + |ForkTables(Leaves(old(m.S())), parent)|
    ensures ok ==> Settled(m.S()) && CountsRestored(old(m.S()), m.S(), parent)
  {
    ghost var s := m.S();
    var child, bytes := TaskFork(m, parent, frame);
    ok := child.Some?;
    if ok {
      ghost var s1 := m.S();
      FrameMapped(s, s1, parent, child.value.1, child.value.0, bytes);
      TaskDestroy(m, child.value.0, TRAPFRAME);
      ForkDestroyCounts(s, s1, m.S(), parent, child.value.1, child.value.0, bytes);
    }
  }

  lemma FrameMapped(s: St, s1: St, parent: nat, t: nat, root: nat, bytes: Page)
    requires Runs(s, s1, ForkActs(parent, t, root, bytes))
    ensures (root, TRAPFRAME) in Leaves(s1) && !Leaves(s1)[(root, TRAPFRAME)].fl.g
  {
    RunsRan(s, s1, ForkActs(parent, t, root, bytes));
    ForkedImage(Abs(s), parent, t, root, bytes, (root, TRAPFRAME));
  }

  const GLOBAL := Flags(true, false, true, false, true, false, false, false)

  /** An empty space, a page for a trap frame and a page of the kernel. */
  method OneSpace() returns (m: Memory, root: nat, frame: nat)
    ensures fresh(m) && Settled(m.S()) && EmptyTree(m.S(), root) && Abs(m.S()).roots == {root} && Leaves(m.S()) == map[]
    ensures frame < |m.fr| && m.role[frame] == Data && 0 < |m.fr| && m.role[0] == Image && m.rc[0] == 0
    ensures |m.free| == 13
  {
    m := new Memory([ZeroPage()], 16);
    var p := TakePage(m);
    var r := TakePage(m);
    frame, root := p.value, r.value;
    AdoptDoes(m.S(), root);
    m.role, m.dead := m.role[root := Root], m.dead[root := FIRST];
    assert forall q | 0 <= q < 16 :: m.role[q] == Root <==> q == root;
    assert Abs(m.S()).roots == {root};
  }

  /** The program maps the page of the kernel. */
  method WithGlobal() returns (m: Memory, root: nat, frame: nat)
    ensures fresh(m) && Settled(m.S()) && Tree(m.S(), root) && |Abs(m.S()).roots| == 1
    ensures frame < |m.fr| && m.role[frame] == Data && 0 < |m.rc| && m.rc[0] == 0 && m.role[0] == Image
    ensures Leaves(m.S()) == map[(root, FIRST) := LeafPte(0, GLOBAL)] && |m.free| >= 6
  {
    m, root, frame := OneSpace();
    ghost var s := m.S();
    var ok := MapGlobal(m, root, FIRST, 0, GLOBAL);
    GrownData(s, m.S(), root);
    assert GrownAt(s, m.S(), root, 0) && GrownAt(s, m.S(), root, frame);
  }

  lemma OneGlobal(leaves: map<C.Key, Pte>, root: nat)
    requires leaves == map[(root, FIRST) := LeafPte(0, GLOBAL)]
    ensures |ForkTables(leaves, root)| <= 4 && |Globals(leaves, root, END, 0)| == 1
  {
    assert Needed(leaves, root, END) <= PathTo(FIRST);
    assert ForkTables(leaves, root) <= PathTo(FIRST) + PathTo(TRAPFRAME);
    SubsetSize(ForkTables(leaves, root), PathTo(FIRST) + PathTo(TRAPFRAME));
    assert C.Copied(leaves, root, END, (root, FIRST));
    assert Globals(leaves, root, END, 0) == {(root, FIRST)};
  }

  /** One fork of that program and the end of the child leave the page of the
      kernel with a count of 1, where it was 0. */
  method ForkLeaks() returns (m: Memory)
    ensures 0 < |m.rc| && m.rc[0] == 1
  {
    var root, frame;
    m, root, frame := WithGlobal();
    OneGlobal(Leaves(m.S()), root);
    var ok := ForkAndDestroy(m, root, frame);
  }
}
