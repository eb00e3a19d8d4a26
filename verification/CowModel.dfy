/** Address spaces as flat maps from page number to leaf entry, with the lazy
    fork of the kernel, next to the machine it must agree with: an address
    space is a map from page number to bytes, and fork copies all of it. */
module CowModel {
  import opened Common
  import opened Types

  /** A page number inside the address space named by its root page. */
  type Key = (nat, Vpn)

  /** `leaves` gives the leaf entries of every live address space, `data` the
      content of every page in use that is not a table. */
  datatype Vm = Vm(roots: set<nat>, leaves: map<Key, Pte>, data: map<nat, Page>)

  datatype Action =
    | Alloc(page: nat)                                  // page_alloc
    | Adopt(root: nat)                                  // the page becomes an empty root table
    | Fill(page: nat, bytes: Page)                      // the kernel writes a page nobody maps
    | Map(at: Key, page: nat, fl: Flags)                // vpage_map
    | Fork(parent: nat, child: nat)                     // vpage_tree_copy
    | Fault(at: Key, copy: nat)                        // vpage_handle_cow
    | Store(at: Key, off: nat, bs: seq<Byte>, copy: nat)
    | Unmap(at: Key)                                    // vpage_unmmap
    | Free(root: nat)                                   // vpage_tree_free
    | Release(page: nat)                                // page_put of a page nobody maps

  /** Key `k` holds page `p` through a counted, that is non-global, leaf. */
  predicate Holds(leaves: map<Key, Pte>, k: Key, p: nat) {
    k in leaves && !leaves[k].fl.g && leaves[k].ppn == p
  }

  function Holders(leaves: map<Key, Pte>, p: nat): set<Key> {
    set k | k in leaves && Holds(leaves, k, p)
  }

  predicate Held(leaves: map<Key, Pte>, p: nat) {
    exists k :: k in leaves && Holds(leaves, k, p)
  }

  /** `k` is the only counted leaf of its page. */
  predicate Sole(leaves: map<Key, Pte>, k: Key)
    requires k in leaves
  {
    forall j | j in leaves && Holds(leaves, j, leaves[k].ppn) :: j == k
  }

  predicate Unmapped(leaves: map<Key, Pte>, p: nat) {
    forall k | k in leaves :: leaves[k].ppn != p
  }

  predicate IsEmpty(leaves: map<Key, Pte>, r: nat) {
    forall k | k in leaves :: k.0 != r
  }

  ghost predicate Inv(vm: Vm) {
    Backed(vm) && Consistent(vm.leaves) && vm.roots !! vm.data.Keys
  }

  /** Every leaf belongs to a live space, names a page in use and is sane. */
  ghost predicate Backed(vm: Vm) {
    forall k | k in vm.leaves ::
      && k.0 in vm.roots && InRange(k.1) && vm.leaves[k].ppn in vm.data
      && vm.leaves[k].v && SaneFlags(vm.leaves[k].fl)
  }

  ghost predicate Consistent(leaves: map<Key, Pte>) {
    forall j, k :: !Clash(leaves, j, k)
  }

  /** Two leaves of one page although one is writable, although one is global
      and the other is not, or although they sit at different page numbers. */
  predicate Clash(leaves: map<Key, Pte>, j: Key, k: Key) {
    && j in leaves && k in leaves && j != k && leaves[j].ppn == leaves[k].ppn
    && (leaves[j].fl.w || leaves[j].fl.g != leaves[k].fl.g || (!leaves[j].fl.g && j.1 != k.1))
  }

  // ------------------------------------------------------------- the lazy machine

  predicate Copied(leaves: map<Key, Pte>, r: nat, d: Vpn, k: Key) {
    k in leaves && k.0 == r && k.1 != TRAPFRAME && Before(k.1, d)
  }

  /** Fork of `r` into the empty space `c`, done for the page numbers below
      `d`: every leaf but the trap frame loses W for COW in the parent, and
      the child gets the same pages. */
  function ForkBelow(leaves: map<Key, Pte>, r: nat, c: nat, d: Vpn): map<Key, Pte> {
    map k | k in leaves.Keys + (set j | j in leaves && Copied(leaves, r, d, j) :: (c, j.1)) ::
      if Copied(leaves, r, d, k) then Protect(leaves[k])
      else if k in leaves then leaves[k]
      else if (r, k.1) in leaves then LeafPte(leaves[(r, k.1)].ppn, Protect(leaves[(r, k.1)]).fl)
      else NO_PTE
  }

  function ForkLeaves(leaves: map<Key, Pte>, r: nat, c: nat): map<Key, Pte> {
    ForkBelow(leaves, r, c, END)
  }

  /** The data left when the leaves become `now`: a page that loses its last
      counted leaf goes back to the allocator. */
  function Surviving(data: map<nat, Page>, was: map<Key, Pte>, now: map<Key, Pte>): map<nat, Page> {
    map p | p in data && (Held(was, p) ==> Held(now, p)) :: data[p]
  }

  function Without<T>(m: map<Key, T>, r: nat): map<Key, T> {
    map k | k in m && k.0 != r :: m[k]
  }

  predicate Enabled(vm: Vm, act: Action) {
    match act
    case Alloc(p) => p !in vm.data && p !in vm.roots
    case Adopt(r) => r in vm.data && Unmapped(vm.leaves, r)
    case Fill(p, _) => p in vm.data && Unmapped(vm.leaves, p)
    case Map(k, p, fl) =>
      && k.0 in vm.roots && InRange(k.1) && k !in vm.leaves && p in vm.data && SaneFlags(fl)
      && (if fl.g then !Held(vm.leaves, p) else Unmapped(vm.leaves, p))
    case Fork(r, c) => r in vm.roots && c in vm.roots && r != c && IsEmpty(vm.leaves, c)
    case Fault(k, q) => k in vm.leaves && vm.leaves[k].fl.cow && Fresh(vm, k, q)
    case Store(k, off, bs, q) => off + |bs| <= PAGE_SIZE && (k in vm.leaves && vm.leaves[k].fl.cow ==> Fresh(vm, k, q))
    case Unmap(k) => k in vm.leaves && !vm.leaves[k].fl.g
    case Free(r) => r in vm.roots
    case Release(p) => p in vm.data && Unmapped(vm.leaves, p)
  }

  /** `q` can be the copy a fault at `k` needs, if it needs one. */
  predicate Fresh(vm: Vm, k: Key, q: nat)
    requires k in vm.leaves
  {
    Sole(vm.leaves, k) || (q !in vm.data && q !in vm.roots)
  }

  function Resolve(vm: Vm, k: Key, q: nat): (vm': Vm)
    requires k in vm.leaves && vm.leaves[k].ppn in vm.data
  {
    if Sole(vm.leaves, k)
    then Vm(vm.roots, vm.leaves[k := Unprotect(vm.leaves[k], vm.leaves[k].ppn)], vm.data)
    else Vm(vm.roots, vm.leaves[k := Unprotect(vm.leaves[k], q)], vm.data[q := vm.data[vm.leaves[k].ppn]])
  }

  function WritePage(data: map<nat, Page>, p: nat, off: nat, bs: seq<Byte>): map<nat, Page>
    requires p in data && off + |bs| <= PAGE_SIZE
  {
    data[p := Overwrite(data[p], off, bs)]
  }

  function Write(vm: Vm, k: Key, off: nat, bs: seq<Byte>): Vm
    requires k in vm.leaves && vm.leaves[k].ppn in vm.data && off + |bs| <= PAGE_SIZE
  {
    Vm(vm.roots, vm.leaves, WritePage(vm.data, vm.leaves[k].ppn, off, bs))
  }

  function Apply(vm: Vm, act: Action): Vm
    requires Backed(vm) && Enabled(vm, act)
  {
    match act
    case Alloc(p) => Vm(vm.roots, vm.leaves, vm.data[p := ZeroPage()])
    case Adopt(r) => Vm(vm.roots + {r}, vm.leaves, vm.data - {r})
    case Fill(p, bytes) => Vm(vm.roots, vm.leaves, vm.data[p := bytes])
    case Map(k, p, fl) => Vm(vm.roots, vm.leaves[k := LeafPte(p, fl)], vm.data)
    case Fork(r, c) => Vm(vm.roots, ForkLeaves(vm.leaves, r, c), vm.data)
    case Fault(k, q) => Resolve(vm, k, q)
    case Store(k, off, bs, q) =>
      if k !in vm.leaves then vm
      else if vm.leaves[k].fl.cow then
        Write(Resolve(vm, k, q), k, off, bs)
      else if vm.leaves[k].fl.w then Write(vm, k, off, bs)
      else vm
    case Unmap(k) =>
      Vm(vm.roots, vm.leaves - {k}, Surviving(vm.data, vm.leaves, vm.leaves - {k}))
    case Free(r) =>
      Vm(vm.roots - {r}, Without(vm.leaves, r), Surviving(vm.data, vm.leaves, Without(vm.leaves, r)))
    case Release(p) => Vm(vm.roots, vm.leaves, vm.data - {p})
  }

  // ------------------------------------------------------------ the simple machine

  datatype Perm = Perm(r: bool, w: bool, x: bool, u: bool, g: bool)

  datatype OwnPage = OwnPage(bytes: Page, perm: Perm)

  /** Every space owns its pages; `loose` pages belong to no space yet. */
  datatype Simple = Simple(roots: set<nat>, pages: map<Key, OwnPage>, loose: map<nat, Page>)

  function ApplySimple(s: Simple, act: Action): Simple {
    match act
    case Alloc(p) => Simple(s.roots, s.pages, s.loose[p := ZeroPage()])
    case Adopt(r) => Simple(s.roots + {r}, s.pages, s.loose - {r})
    case Fill(p, bytes) => Simple(s.roots, s.pages, s.loose[p := bytes])
    case Map(k, p, fl) =>
      if p !in s.loose then s
      else Simple(s.roots, s.pages[k := OwnPage(s.loose[p], PermOf(fl))],
                  if fl.g then s.loose else s.loose - {p})
    case Fork(r, c) => Simple(s.roots, CopyAll(s.pages, r, c), s.loose)
    case Fault(_, _) => s
    case Store(k, off, bs, _) =>
      if k in s.pages && s.pages[k].perm.w && off + |bs| <= PAGE_SIZE
      then Simple(s.roots, s.pages[k := OwnPage(Overwrite(s.pages[k].bytes, off, bs), s.pages[k].perm)], s.loose)
      else s
    case Unmap(k) => Simple(s.roots, s.pages - {k}, s.loose)
    case Free(r) => Simple(s.roots - {r}, Without(s.pages, r), s.loose)
    case Release(p) => Simple(s.roots, s.pages, s.loose - {p})
  }

  function CopyAll(pages: map<Key, OwnPage>, r: nat, c: nat): map<Key, OwnPage> {
    map k | k in pages.Keys + (set j | j in pages && j.0 == r && j.1 != TRAPFRAME :: (c, j.1)) ::
      if k.0 == c && k.1 != TRAPFRAME && (r, k.1) in pages then pages[(r, k.1)]
      else if k in pages then pages[k] else OwnPage(ZeroPage(), Perm(false, false, false, false, false))
  }

  function PermOf(fl: Flags): Perm {
    Perm(fl.r, fl.w || fl.cow, fl.x, fl.u, fl.g)
  }

  // ------------------------------------------------------------------- refinement

  /** What the lazy machine lets its owner read and write at `k`. */
  function Image(vm: Vm, k: Key): Option<OwnPage>
    requires Backed(vm)
  {
    if k in vm.leaves then Some(OwnPage(vm.data[vm.leaves[k].ppn], PermOf(vm.leaves[k].fl))) else None
  }

  function Loose(vm: Vm, p: nat): Option<Page> {
    if p in vm.data && !Held(vm.leaves, p) then Some(vm.data[p]) else None
  }

  /** The simple machine `s` shows the same spaces, pages and permissions. */
  ghost predicate Sees(vm: Vm, s: Simple)
    requires Backed(vm)
  {
    && s.roots == vm.roots
    && (forall k :: Get(s.pages, k) == Image(vm, k))
    && (forall p :: Get(s.loose, p) == Loose(vm, p))
  }

  /** Leaves that only disappear keep the invariant and what is left to see. */
  lemma ShrinkRefines(vm: Vm, roots: set<nat>, now: map<Key, Pte>)
    requires Inv(vm) && roots <= vm.roots
    requires forall k | k in now :: k in vm.leaves && now[k] == vm.leaves[k] && k.0 in roots
    ensures var vm' := Vm(roots, now, Surviving(vm.data, vm.leaves, now));
            && Inv(vm')
            && (forall p :: Loose(vm', p) == Loose(vm, p))
            && (forall k | k in now :: Image(vm', k) == Image(vm, k))
  {
    var vm' := Vm(roots, now, Surviving(vm.data, vm.leaves, now));
    forall k | k in now ensures now[k].ppn in vm'.data {
      if now[k].fl.g {
        forall j ensures !Holds(vm.leaves, j, now[k].ppn) {
          assert !Clash(vm.leaves, k, j);
        }
      } else {
        assert Holds(now, k, now[k].ppn);
      }
    }
    forall j, k ensures !Clash(now, j, k) {
      assert !Clash(vm.leaves, j, k);
    }
    forall p | Held(now, p) ensures Held(vm.leaves, p) {
      var k :| k in now && Holds(now, k, p);
      assert Holds(vm.leaves, k, p);
    }
  }

  /** The key whose page a leaf after fork names. */
  function ForkOrigin(leaves: map<Key, Pte>, r: nat, k: Key): Key {
    if k in leaves then k else (r, k.1)
  }

  /** However far fork got, its leaves are consistent. */
  lemma ForkKeepsInv(vm: Vm, r: nat, c: nat, d: Vpn)
    requires Inv(vm) && Enabled(vm, Fork(r, c))
    ensures Inv(Vm(vm.roots, ForkBelow(vm.leaves, r, c, d), vm.data))
  {
    var old', now := vm.leaves, ForkBelow(vm.leaves, r, c, d);
    forall k | k in now ensures
        var o := ForkOrigin(old', r, k);
        && o in old' && now[k].ppn == old'[o].ppn && now[k].fl.g == old'[o].fl.g && k.1 == o.1
        && (now[k].fl.w ==> k in old' && now[k] == old'[k] && !Copied(old', r, d, k))
    {
    }
    forall j, k ensures !Clash(now, j, k) {
      var oj, ok := ForkOrigin(old', r, j), ForkOrigin(old', r, k);
      assert !Clash(old', oj, ok) && !Clash(old', ok, oj);
    }
  }

  lemma ForkKeepsHeld(vm: Vm, r: nat, c: nat, p: nat)
    requires Inv(vm) && Enabled(vm, Fork(r, c))
    ensures Held(vm.leaves, p) <==> Held(ForkLeaves(vm.leaves, r, c), p)
  {
    var old', now := vm.leaves, ForkLeaves(vm.leaves, r, c);
    if k :| k in old' && Holds(old', k, p) {
      assert Holds(now, k, p);
    }
    if k :| k in now && Holds(now, k, p) {
      assert Holds(old', ForkOrigin(old', r, k), p);
    }
  }

  lemma ForkImage(vm: Vm, s: Simple, r: nat, c: nat, k: Key)
    requires Inv(vm) && Sees(vm, s) && Enabled(vm, Fork(r, c)) && Backed(Apply(vm, Fork(r, c)))
    ensures Get(CopyAll(s.pages, r, c), k) == Image(Apply(vm, Fork(r, c)), k)
  {
    assert Get(s.pages, k) == Image(vm, k);
    assert Get(s.pages, (r, k.1)) == Image(vm, (r, k.1));
  }

  lemma ForkRefines(vm: Vm, s: Simple, r: nat, c: nat)
    requires Inv(vm) && Sees(vm, s) && Enabled(vm, Fork(r, c))
    ensures Inv(Apply(vm, Fork(r, c)))
    ensures Sees(Apply(vm, Fork(r, c)), ApplySimple(s, Fork(r, c)))
  {
    ForkKeepsInv(vm, r, c, END);
    var vm' := Apply(vm, Fork(r, c));
    forall p ensures Loose(vm', p) == Loose(vm, p) {
      ForkKeepsHeld(vm, r, c, p);
    }
    forall k ensures Get(CopyAll(s.pages, r, c), k) == Image(vm', k) {
      ForkImage(vm, s, r, c, k);
    }
  }

  /** Resolving a copy-on-write leaf makes it writable and keeps the invariant. */
  lemma ResolveKeepsInv(vm: Vm, k: Key, q: nat)
    requires Inv(vm) && k in vm.leaves && vm.leaves[k].fl.cow && Fresh(vm, k, q)
    ensures Inv(Resolve(vm, k, q)) && Resolve(vm, k, q).leaves[k].fl.w
  {
    var p, now := vm.leaves[k].ppn, Resolve(vm, k, q).leaves;
    forall j | j in vm.leaves && j != k ensures now[j].ppn != now[k].ppn {
      assert !Clash(vm.leaves, k, j);
      assert Sole(vm.leaves, k) && vm.leaves[j].ppn == p ==> Holds(vm.leaves, j, p);
    }
    forall i, j ensures !Clash(now, i, j) {
      assert !Clash(vm.leaves, i, j);
    }
  }

  lemma ResolveLoose(vm: Vm, k: Key, q: nat, p: nat)
    requires Inv(vm) && k in vm.leaves && vm.leaves[k].fl.cow && Fresh(vm, k, q)
    ensures Loose(Resolve(vm, k, q), p) == Loose(vm, p)
  {
    var now := Resolve(vm, k, q).leaves;
    assert Holds(vm.leaves, k, vm.leaves[k].ppn) && Holds(now, k, now[k].ppn);
    if j :| j in vm.leaves && j != k && Holds(vm.leaves, j, p) {
      assert Holds(now, j, p);
    }
    if j :| j in now && j != k && Holds(now, j, p) {
      assert Holds(vm.leaves, j, p);
    }
  }

  /** ... and no space can tell. */
  lemma ResolveInvisible(vm: Vm, k: Key, q: nat)
    requires Inv(vm) && k in vm.leaves && vm.leaves[k].fl.cow && Fresh(vm, k, q)
    ensures Inv(Resolve(vm, k, q)) && Resolve(vm, k, q).leaves[k].fl.w
    ensures forall p :: Loose(Resolve(vm, k, q), p) == Loose(vm, p)
    ensures forall j :: Image(Resolve(vm, k, q), j) == Image(vm, j)
  {
    ResolveKeepsInv(vm, k, q);
    forall p ensures Loose(Resolve(vm, k, q), p) == Loose(vm, p) {
      ResolveLoose(vm, k, q, p);
    }
  }

  /** A write through a writable leaf is seen at that leaf and nowhere else. */
  lemma WriteRefines(vm: Vm, s: Simple, k: Key, off: nat, bs: seq<Byte>, q: nat)
    requires Inv(vm) && Sees(vm, s) && k in vm.leaves && vm.leaves[k].fl.w && off + |bs| <= PAGE_SIZE
    ensures Inv(Write(vm, k, off, bs))
    ensures Sees(Write(vm, k, off, bs), ApplySimple(s, Store(k, off, bs, q)))
  {
    var vm', s' := Write(vm, k, off, bs), ApplySimple(s, Store(k, off, bs, q));
    assert Holds(vm.leaves, k, vm.leaves[k].ppn);
    assert Get(s.pages, k) == Image(vm, k);
    forall j ensures Get(s'.pages, j) == Image(vm', j) {
      assert Get(s.pages, j) == Image(vm, j);
      assert !Clash(vm.leaves, k, j);
    }
    forall p ensures Get(s'.loose, p) == Loose(vm', p) {
      assert Get(s.loose, p) == Loose(vm, p);
    }
  }

  lemma MapKeepsInv(vm: Vm, k: Key, p: nat, fl: Flags)
    requires Inv(vm) && Enabled(vm, Map(k, p, fl))
    ensures Inv(Apply(vm, Map(k, p, fl)))
  {
    var now := vm.leaves[k := LeafPte(p, fl)];
    forall i, j ensures !Clash(now, i, j) {
      assert !Clash(vm.leaves, i, j);
      assert i in vm.leaves && vm.leaves[i].ppn == p ==> !Holds(vm.leaves, i, p);
      assert j in vm.leaves && vm.leaves[j].ppn == p ==> !Holds(vm.leaves, j, p);
    }
  }

  lemma MapRefines(vm: Vm, s: Simple, k: Key, p: nat, fl: Flags)
    requires Inv(vm) && Sees(vm, s) && Enabled(vm, Map(k, p, fl))
    ensures Inv(Apply(vm, Map(k, p, fl)))
    ensures Sees(Apply(vm, Map(k, p, fl)), ApplySimple(s, Map(k, p, fl)))
  {
    MapKeepsInv(vm, k, p, fl);
    var vm', s' := Apply(vm, Map(k, p, fl)), ApplySimple(s, Map(k, p, fl));
    assert Get(s.loose, p) == Loose(vm, p);
    assert Holds(vm'.leaves, k, p) == !fl.g;
    forall x ensures Get(s'.loose, x) == Loose(vm', x) {
      assert Get(s.loose, x) == Loose(vm, x);
      if j :| j in vm'.leaves && j != k && Holds(vm'.leaves, j, x) {
        assert Holds(vm.leaves, j, x);
      }
      if j :| j in vm.leaves && Holds(vm.leaves, j, x) {
        assert Holds(vm'.leaves, j, x);
      }
    }
    forall j ensures Get(s'.pages, j) == Image(vm', j) {
      assert Get(s.pages, j) == Image(vm, j);
    }
  }

  lemma DataRefines(vm: Vm, s: Simple, act: Action)
    requires Inv(vm) && Sees(vm, s) && Enabled(vm, act)
    requires act.Alloc? || act.Adopt? || act.Fill? || act.Release?
    ensures Inv(Apply(vm, act))
    ensures Sees(Apply(vm, act), ApplySimple(s, act))
  {
    var vm', s' := Apply(vm, act), ApplySimple(s, act);
    forall j ensures Get(s'.pages, j) == Image(vm', j) {
      assert Get(s.pages, j) == Image(vm, j);
    }
    forall p ensures Get(s'.loose, p) == Loose(vm', p) {
      assert Get(s.loose, p) == Loose(vm, p);
    }
  }

  /** One step: fork, fault, store, map, unmap and free of the lazy machine
      are fork, nothing, store, map, unmap and free of the simple one. */
  lemma ApplyRefines(vm: Vm, s: Simple, act: Action)
    requires Inv(vm) && Sees(vm, s) && Enabled(vm, act)
    ensures Inv(Apply(vm, act))
    ensures Sees(Apply(vm, act), ApplySimple(s, act))
  {
    match act
    case Map(k, p, fl) => MapRefines(vm, s, k, p, fl);
    case Fork(r, c) => ForkRefines(vm, s, r, c);
    case Fault(k, q) => ResolveInvisible(vm, k, q);
    case Store(k, off, bs, q) => StoreRefines(vm, s, k, off, bs, q);
    case Unmap(_) => DropRefines(vm, s, act);
    case Free(_) => DropRefines(vm, s, act);
    case _ => DataRefines(vm, s, act);
  }

  lemma StoreRefines(vm: Vm, s: Simple, k: Key, off: nat, bs: seq<Byte>, q: nat)
    requires Inv(vm) && Sees(vm, s) && Enabled(vm, Store(k, off, bs, q))
    ensures Inv(Apply(vm, Store(k, off, bs, q)))
    ensures Sees(Apply(vm, Store(k, off, bs, q)), ApplySimple(s, Store(k, off, bs, q)))
  {
    assert Get(s.pages, k) == Image(vm, k);
    if k in vm.leaves && vm.leaves[k].fl.cow {
      ResolveInvisible(vm, k, q);
      WriteRefines(Resolve(vm, k, q), s, k, off, bs, q);
    } else if k in vm.leaves && vm.leaves[k].fl.w {
      WriteRefines(vm, s, k, off, bs, q);
    }
  }

  lemma DropRefines(vm: Vm, s: Simple, act: Action)
    requires Inv(vm) && Sees(vm, s) && Enabled(vm, act) && (act.Unmap? || act.Free?)
    ensures Inv(Apply(vm, act))
    ensures Sees(Apply(vm, act), ApplySimple(s, act))
  {
    var vm', s' := Apply(vm, act), ApplySimple(s, act);
    ShrinkRefines(vm, vm'.roots, vm'.leaves);
    forall j ensures Get(s'.pages, j) == Image(vm', j) {
      assert Get(s.pages, j) == Image(vm, j);
    }
    forall p ensures Get(s'.loose, p) == Loose(vm', p) {
      assert Get(s.loose, p) == Loose(vm, p);
    }
  }

  // ------------------------------------------------------------------- whole runs

  ghost predicate Runnable(vm: Vm, acts: seq<Action>)
    decreases |acts|
  {
    Inv(vm) && (acts != [] ==> Enabled(vm, acts[0]) && Runnable(Apply(vm, acts[0]), acts[1..]))
  }

  ghost function Run(vm: Vm, acts: seq<Action>): Vm
    requires Runnable(vm, acts)
    decreases |acts|
  {
    if acts == [] then vm else Run(Apply(vm, acts[0]), acts[1..])
  }

  function RunSimple(s: Simple, acts: seq<Action>): Simple
    decreases |acts|
  {
    if acts == [] then s else RunSimple(ApplySimple(s, acts[0]), acts[1..])
  }

  /** Over every run, what every space reads and may write is what it would
      read and might write if fork had copied every page at once. */
  lemma {:induction false} RunRefines(vm: Vm, s: Simple, acts: seq<Action>)
    requires Runnable(vm, acts) && Sees(vm, s)
    ensures Inv(Run(vm, acts)) && Sees(Run(vm, acts), RunSimple(s, acts))
    decreases |acts|
  {
    if acts != [] {
      ApplyRefines(vm, s, acts[0]);
      RunRefines(Apply(vm, acts[0]), ApplySimple(s, acts[0]), acts[1..]);
    }
  }

  /** The action changes the memory image of space `r`. */
  predicate Touches(act: Action, r: nat) {
    match act
    case Map(k, _, _) => k.0 == r
    case Fork(_, c) => c == r
    case Store(k, _, _, _) => k.0 == r
    case Unmap(k) => k.0 == r
    case Free(r') => r' == r
    case _ => false
  }

  /** The simple machine that shows what `vm` shows. */
  ghost function View(vm: Vm): (s: Simple)
    requires Inv(vm)
    ensures Sees(vm, s)
  {
    Simple(vm.roots,
           map k | k in vm.leaves :: OwnPage(vm.data[vm.leaves[k].ppn], PermOf(vm.leaves[k].fl)),
           map p | p in vm.data && !Held(vm.leaves, p) :: vm.data[p])
  }

  /** Isolation: whatever the other spaces do, forks of `r` and faults of `r`
      and its relatives included, `r` keeps reading the same bytes. */
  lemma {:induction false} Isolation(vm: Vm, acts: seq<Action>, k: Key)
    requires Runnable(vm, acts) && (forall a | a in acts :: !Touches(a, k.0))
    ensures Inv(Run(vm, acts)) && Image(Run(vm, acts), k) == Image(vm, k)
    decreases |acts|
  {
    if acts != [] {
      var vm', s := Apply(vm, acts[0]), View(vm);
      ApplyRefines(vm, s, acts[0]);
      assert !Touches(acts[0], k.0);
      SimpleUntouched(s, acts[0], k);
      assert Get(s.pages, k) == Image(vm, k);
      assert Get(ApplySimple(s, acts[0]).pages, k) == Image(vm', k);
      Isolation(vm', acts[1..], k);
    }
  }

  lemma SimpleUntouched(s: Simple, act: Action, k: Key)
    requires !Touches(act, k.0)
    ensures Get(ApplySimple(s, act).pages, k) == Get(s.pages, k)
  {
  }

  /** Fork followed by freeing the child gives back every count and every page. */
  lemma ForkFreeRestoresCounts(vm: Vm, r: nat, c: nat)
    requires Inv(vm) && Enabled(vm, Fork(r, c))
    ensures Inv(Apply(vm, Fork(r, c)))
    ensures var end := Apply(Apply(vm, Fork(r, c)), Free(c));
            end.data == vm.data && forall p :: Holders(end.leaves, p) == Holders(vm.leaves, p)
  {
    ForkKeepsInv(vm, r, c, END);
    var end := Apply(Apply(vm, Fork(r, c)), Free(c));
    forall p ensures Holders(end.leaves, p) == Holders(vm.leaves, p) && (p in vm.data ==> p in end.data) {
      ForkFreePage(vm, r, c, p);
    }
  }

  ghost predicate ForkFreeHolders(vm: Vm, r: nat, c: nat, p: nat) {
    var mid := ForkLeaves(vm.leaves, r, c);
    var end := Without(mid, c);
    Holders(end, p) == Holders(vm.leaves, p) && (Held(mid, p) ==> Held(end, p))
  }

  lemma ForkFreePage(vm: Vm, r: nat, c: nat, p: nat)
    requires Inv(vm) && Enabled(vm, Fork(r, c))
    ensures ForkFreeHolders(vm, r, c, p)
  {
    var mid := ForkLeaves(vm.leaves, r, c);
    var end := Without(mid, c);
    forall k ensures Holds(end, k, p) == Holds(vm.leaves, k, p) {}
    if Held(mid, p) {
      ForkKeepsHeld(vm, r, c, p);
      var k :| k in vm.leaves && Holds(vm.leaves, k, p);
      assert Holds(end, k, p);
    }
  }

  /** A page has at most one counted leaf per address space. */
  lemma HoldersBounded(vm: Vm, p: nat)
    requires Inv(vm)
    ensures |Holders(vm.leaves, p)| <= |vm.roots|
  {
    var hs := Holders(vm.leaves, p);
    forall j, k | j in hs && k in hs ensures j.1 == k.1 {
      assert !Clash(vm.leaves, j, k);
    }
    SameSecondBound(hs, vm.roots);
  }

  lemma {:induction false} SameSecondBound(hs: set<Key>, roots: set<nat>)
    requires forall j, k | j in hs && k in hs :: j.1 == k.1
    requires forall k | k in hs :: k.0 in roots
    ensures |hs| <= |roots|
    decreases hs
  {
    if k :| k in hs {
      SameSecondBound(hs - {k}, roots - {k.0});
      assert |hs - {k}| == |hs| - 1 && |roots - {k.0}| == |roots| - 1;
    }
  }

  /** How the number of counted leaves of `p` moves when one leaf changes. */
  lemma HoldersUpdate(leaves: map<Key, Pte>, k: Key, e: Pte, p: nat)
    ensures |Holders(leaves[k := e], p)| ==
            |Holders(leaves, p)| - (if Holds(leaves, k, p) then 1 else 0) + (if !e.fl.g && e.ppn == p then 1 else 0)
  {
    HoldersRemove(leaves, k, p);
    HoldersRemove(leaves[k := e], k, p);
    assert leaves[k := e] - {k} == leaves - {k};
  }

  lemma HoldersRemove(leaves: map<Key, Pte>, k: Key, p: nat)
    ensures k !in Holders(leaves - {k}, p)
    ensures |Holders(leaves - {k}, p)| == |Holders(leaves, p)| - if Holds(leaves, k, p) then 1 else 0
  {
    forall j | j != k ensures Holds(leaves - {k}, j, p) == Holds(leaves, j, p) {}
    assert Holders(leaves - {k}, p) == Holders(leaves, p) - {k};
    assert k in Holders(leaves, p) <==> Holds(leaves, k, p);
  }

  /** Removing a counted leaf releases its page exactly when it was the sole one. */
  lemma HeldRemove(leaves: map<Key, Pte>, k: Key, p: nat)
    requires k in leaves && !leaves[k].fl.g
    ensures Held(leaves, p) && !Held(leaves - {k}, p) <==> p == leaves[k].ppn && Sole(leaves, k)
  {
    var now := leaves - {k};
    assert Holds(leaves, k, leaves[k].ppn);
    if j :| j in leaves && j != k && Holds(leaves, j, p) {
      assert Holds(now, j, p);
    }
    if j :| j in now && Holds(now, j, p) {
      assert Holds(leaves, j, p);
    }
  }

  /** Unmap, stated on the pages: only the page of `k` goes, and only if `last`. */
  lemma UnmapIs(vm: Vm, k: Key, last: bool, data: map<nat, Page>)
    requires Inv(vm) && k in vm.leaves && !vm.leaves[k].fl.g && (last <==> Sole(vm.leaves, k))
    requires data == if last then vm.data - {vm.leaves[k].ppn} else vm.data
    ensures Enabled(vm, Unmap(k)) && Apply(vm, Unmap(k)) == Vm(vm.roots, vm.leaves - {k}, data)
  {
    var now := Surviving(vm.data, vm.leaves, vm.leaves - {k});
    forall p ensures Get(now, p) == Get(data, p) {
      HeldRemove(vm.leaves, k, p);
    }
    MapExt(now, data);
  }

  lemma FaultIs(vm: Vm, k: Key, q: nat)
    requires Inv(vm) && k in vm.leaves && vm.leaves[k].fl.cow && Fresh(vm, k, q)
    ensures Enabled(vm, Fault(k, q)) && Apply(vm, Fault(k, q)) == Resolve(vm, k, q)
  {
  }

  /** The two outcomes of a fault, stated on the leaf and the pages. */
  lemma ClaimIs(vm: Vm, k: Key, q: nat)
    requires Inv(vm) && k in vm.leaves && vm.leaves[k].fl.cow && Sole(vm.leaves, k)
    ensures Enabled(vm, Fault(k, q))
    ensures Apply(vm, Fault(k, q)) ==
            Vm(vm.roots, vm.leaves[k := Unprotect(vm.leaves[k], vm.leaves[k].ppn)], vm.data)
  {
    FaultIs(vm, k, q);
  }

  lemma CopyIs(vm: Vm, k: Key, q: nat)
    requires Inv(vm) && k in vm.leaves && vm.leaves[k].fl.cow && !Sole(vm.leaves, k)
    requires q !in vm.data && q !in vm.roots
    ensures Enabled(vm, Fault(k, q)) && vm.leaves[k].ppn in vm.data
    ensures Apply(vm, Fault(k, q)) ==
            Vm(vm.roots, vm.leaves[k := Unprotect(vm.leaves[k], q)], vm.data[q := vm.data[vm.leaves[k].ppn]])
  {
    FaultIs(vm, k, q);
  }

  lemma WriteIs(vm: Vm, k: Key, off: nat, bs: seq<Byte>, q: nat)
    requires Inv(vm) && k in vm.leaves && vm.leaves[k].fl.w && off + |bs| <= PAGE_SIZE
    ensures Enabled(vm, Store(k, off, bs, q)) && vm.leaves[k].ppn in vm.data
    ensures Apply(vm, Store(k, off, bs, q)) ==
            Vm(vm.roots, vm.leaves, vm.data[vm.leaves[k].ppn := Overwrite(vm.data[vm.leaves[k].ppn], off, bs)])
  {
  }

  /** A store to a copy-on-write page is the fault and then the store. */
  lemma FaultThenStore(vm: Vm, k: Key, off: nat, bs: seq<Byte>, q: nat)
    requires Inv(vm) && k in vm.leaves && vm.leaves[k].fl.cow && Enabled(vm, Fault(k, q)) && off + |bs| <= PAGE_SIZE
    ensures Inv(Apply(vm, Fault(k, q))) && Enabled(Apply(vm, Fault(k, q)), Store(k, off, bs, q))
    ensures Enabled(vm, Store(k, off, bs, q))
    ensures Apply(Apply(vm, Fault(k, q)), Store(k, off, bs, q)) == Apply(vm, Store(k, off, bs, q))
    ensures k in Apply(vm, Fault(k, q)).leaves && Apply(vm, Fault(k, q)).leaves[k].fl.w
  {
    ResolveKeepsInv(vm, k, q);
  }

  // ------------------------------------------------------------- fork, step by step

  /** The leaf at `k` when fork of `r` into `c` has handled the page numbers
      below `d`. */
  function ForkLeaf(leaves: map<Key, Pte>, r: nat, c: nat, d: Vpn, k: Key): Option<Pte> {
    if k.0 == c && Copied(leaves, r, d, (r, k.1))
    then Some(LeafPte(leaves[(r, k.1)].ppn, Protect(leaves[(r, k.1)]).fl))
    else if Copied(leaves, r, d, k) then Some(Protect(leaves[k]))
    else Get(leaves, k)
  }

  lemma ForkLeafIs(leaves: map<Key, Pte>, r: nat, c: nat, d: Vpn, k: Key)
    requires IsEmpty(leaves, c) && r != c
    ensures Get(ForkBelow(leaves, r, c, d), k) == ForkLeaf(leaves, r, c, d, k)
  {
  }

  /** Fork of `r` into `c` can start at `vm`, with fewer than 255 spaces. (The
      quantifier keeps the definition folded; `ForkableIs` opens it.) */
  ghost predicate Forkable(vm: Vm, r: nat, c: nat) {
    forall open {:trigger Unfolded(vm, open)} :: Unfolded(vm, open) ==>
      Inv(vm) && Enabled(vm, Fork(r, c)) && |vm.roots| < 255
  }

  ghost predicate Unfolded(vm: Vm, open: bool) {
    true
  }

  lemma ForkableIs(vm: Vm, r: nat, c: nat)
    requires Forkable(vm, r, c)
    ensures Inv(vm) && Enabled(vm, Fork(r, c)) && |vm.roots| < 255
  {
    assert Unfolded(vm, true);
  }

  /** Advancing over page numbers without a leaf changes nothing ... */
  lemma ForkLeafSkip(vm: Vm, r: nat, c: nat, d: Vpn, d': Vpn, k: Key)
    requires Forkable(vm, r, c)
    requires (r, k.1) in vm.leaves && k.1 != TRAPFRAME ==> (Before(k.1, d) <==> Before(k.1, d'))
    ensures ForkLeaf(vm.leaves, r, c, d', k) == ForkLeaf(vm.leaves, r, c, d, k)
  {
    ForkableIs(vm, r, c);
  }

  function Succ(v: Vpn): Vpn {
    Vpn(v.i2, v.i1, v.i0 + 1)
  }

  /** ... and over a leaf writes two entries. */
  lemma ForkLeafCopy(vm: Vm, r: nat, c: nat, v: Vpn, e: Pte, k: Key)
    requires Forkable(vm, r, c) && v != TRAPFRAME && ForkLeaf(vm.leaves, r, c, v, (r, v)) == Some(e)
    ensures ForkLeaf(vm.leaves, r, c, Succ(v), k) ==
            if k == (c, v) then Some(LeafPte(e.ppn, Protect(e).fl))
            else if k == (r, v) then Some(Protect(e)) else ForkLeaf(vm.leaves, r, c, v, k)
    ensures r != c && ForkLeaf(vm.leaves, r, c, v, (c, v)) == None
  {
    ForkableIs(vm, r, c);
  }

  /** However far fork got, its leaves are consistent. */
  lemma ForkLeafConsistent(vm: Vm, r: nat, c: nat, d: Vpn, leaves: map<Key, Pte>)
    requires Forkable(vm, r, c) && forall k :: Get(leaves, k) == ForkLeaf(vm.leaves, r, c, d, k)
    ensures leaves == ForkBelow(vm.leaves, r, c, d) && Consistent(leaves)
  {
    ForkableIs(vm, r, c);
    forall k ensures Get(leaves, k) == Get(ForkBelow(vm.leaves, r, c, d), k) {
      ForkLeafIs(vm.leaves, r, c, d, k);
    }
    MapExt(leaves, ForkBelow(vm.leaves, r, c, d));
    ForkKeepsInv(vm, r, c, d);
  }

  lemma ForkIs(vm: Vm, r: nat, c: nat)
    requires Forkable(vm, r, c)
    ensures Inv(vm) && Enabled(vm, Fork(r, c))
    ensures Apply(vm, Fork(r, c)) == Vm(vm.roots, ForkBelow(vm.leaves, r, c, END), vm.data)
  {
    ForkableIs(vm, r, c);
  }
}
