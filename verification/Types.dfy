/** Values shared by the memory modules: bytes, pages, page table entries. */
module Types {
  import opened Common

  type Byte = bv8

  const PAGE_SIZE := 4096

  type Page = s: seq<Byte> | |s| == PAGE_SIZE witness seq(PAGE_SIZE, _ => 0)

  function ZeroPage(): Page {
    seq(PAGE_SIZE, _ => 0)
  }

  /** A virtual page number, as its index in the table of each level. */
  datatype Vpn = Vpn(i2: nat, i1: nat, i0: nat)

  const ENTRIES := 512

  predicate InRange(v: Vpn) {
    v.i2 < ENTRIES && v.i1 < ENTRIES && v.i0 < ENTRIES
  }

  /** The order of the page numbers, in which a walk over the tables goes. */
  predicate Before(v: Vpn, w: Vpn) {
    v.i2 < w.i2 || (v.i2 == w.i2 && (v.i1 < w.i1 || (v.i1 == w.i1 && v.i0 < w.i0)))
  }

  const FIRST := Vpn(0, 0, 0)
  const END := Vpn(512, 0, 0)

  /** The page of the trap frame, (1 << 38) / 4096 - 2: fork never copies it. */
  const TRAPFRAME := Vpn(255, 511, 510)

  /** The flag bits of a leaf entry; `cow` is the software bit 8. */
  datatype Flags = Flags(r: bool, w: bool, x: bool, u: bool, g: bool, a: bool, d: bool, cow: bool)

  const NO_FLAGS := Flags(false, false, false, false, false, false, false, false)

  datatype Pte = Pte(v: bool, fl: Flags, ppn: nat)

  const NO_PTE := Pte(false, NO_FLAGS, 0)

  /** An entry without R, W and X names a table of the next level. */
  predicate IsPointer(e: Pte) {
    !e.fl.r && !e.fl.w && !e.fl.x
  }

  /** The entry vpage_map writes: V and A are forced, W brings D with it. */
  function LeafPte(ppn: nat, fl: Flags): Pte {
    Pte(true, fl.(a := true, d := fl.d || fl.w), ppn)
  }

  /** What fork does to a writable entry of the parent. */
  function Protect(e: Pte): Pte {
    if e.fl.w then e.(fl := e.fl.(w := false, cow := true)) else e
  }

  /** What a resolved copy-on-write fault leaves in the entry. */
  function Unprotect(e: Pte, ppn: nat): Pte {
    e.(fl := e.fl.(w := true, cow := false), ppn := ppn)
  }

  /** Flag combinations the kernel uses: a leaf is readable or executable, W
      implies R, W and COW exclude each other, a global leaf is read only. */
  predicate SaneFlags(fl: Flags) {
    && (fl.r || fl.x)
    && (fl.w || fl.cow ==> fl.r)
    && !(fl.w && fl.cow)
    && (fl.g ==> !fl.w && !fl.cow)
  }

  /** `buf` with the bytes from `off` on replaced by `bs`. */
  function Overwrite<T>(buf: seq<T>, off: nat, bs: seq<T>): (r: seq<T>)
    requires off + |bs| <= |buf|
    ensures |r| == |buf|
  {
    buf[..off] + bs + buf[off + |bs|..]
  }

  lemma MapExt<K, V>(m: map<K, V>, m': map<K, V>)
    requires forall k :: Get(m, k) == Get(m', k)
    ensures m == m'
  {
    forall k | k in m ensures k in m' && m[k] == m'[k] {
      assert Get(m, k) == Get(m', k);
    }
    forall k | k in m' ensures k in m {
      assert Get(m, k) == Get(m', k);
    }
  }
}
