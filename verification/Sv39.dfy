/** The bit patterns behind page numbers and table entries: addresses are
    split and rebuilt without loss, and the bit operations on an entry are the
    record updates used everywhere else. */
module Sv39 {
  import opened Types

  const PTE_V: bv64 := 0x1
  const PTE_R: bv64 := 0x2
  const PTE_W: bv64 := 0x4
  const PTE_X: bv64 := 0x8
  const PTE_U: bv64 := 0x10
  const PTE_G: bv64 := 0x20
  const PTE_A: bv64 := 0x40
  const PTE_D: bv64 := 0x80
  const PTE_COW: bv64 := 0x100
  const PTE_FLAGS_MASK: bv64 := 0x3ff
  const MAX_VA: bv64 := 0x40_0000_0000

  // ------------------------------------------------------------------ virtual addresses

  /** get_va_vpn: the shift is 12 + 9 * lvl. */
  function VaVpn(va: bv64, lvl: nat): bv64 {
    (if lvl == 2 then va >> 30 else if lvl == 1 then va >> 21 else va >> 12) & 0x1ff
  }

  /** The address copy_level builds for entry `i` of a table of level `lvl`. */
  function ChildVa(va: bv64, i: bv64, lvl: nat): bv64 {
    va | (if lvl == 2 then i << 30 else if lvl == 1 then i << 21 else i << 12)
  }

  function Rebuild(i2: bv64, i1: bv64, i0: bv64): bv64 {
    ChildVa(ChildVa(ChildVa(0, i2, 2), i1, 1), i0, 0)
  }

  /** The page number of an address. */
  function ToVpn(va: bv64): Vpn {
    Vpn(VaVpn(va, 2) as nat, VaVpn(va, 1) as nat, VaVpn(va, 0) as nat)
  }

  /** The address rebuilt from the indices of a walk has these indices. */
  lemma RebuildIndices(i2: bv64, i1: bv64, i0: bv64)
    requires i2 < 512 && i1 < 512 && i0 < 512
    ensures var va := Rebuild(i2, i1, i0);
            && VaVpn(va, 2) == i2 && VaVpn(va, 1) == i1 && VaVpn(va, 0) == i0
            && va & 0xfff == 0 && va < 0x80_0000_0000
  {
  }

  /** Splitting an address into indices and rebuilding it clears the offset. */
  lemma RebuildAddress(va: bv64)
    requires va < 0x80_0000_0000
    ensures Rebuild(VaVpn(va, 2), VaVpn(va, 1), VaVpn(va, 0)) == va & !0xfff
  {
  }

  lemma MaskIndices(va: bv64)
    ensures VaVpn(va & !0xfff, 2) == VaVpn(va, 2) && VaVpn(va & !0xfff, 1) == VaVpn(va, 1)
    ensures VaVpn(va & !0xfff, 0) == VaVpn(va, 0)
  {
  }

  /** Two addresses have the same page number only on the same page. */
  lemma SamePage(va: bv64, vb: bv64)
    requires va < 0x80_0000_0000 && vb < 0x80_0000_0000
    ensures ToVpn(va) == ToVpn(vb) <==> va & !0xfff == vb & !0xfff
  {
    RebuildAddress(va);
    RebuildAddress(vb);
    MaskIndices(va);
    MaskIndices(vb);
    if ToVpn(va) == ToVpn(vb) {
      NatInjective(VaVpn(va, 2), VaVpn(vb, 2));
      NatInjective(VaVpn(va, 1), VaVpn(vb, 1));
      NatInjective(VaVpn(va, 0), VaVpn(vb, 0));
    }
  }

  lemma NatInjective(a: bv64, b: bv64)
    requires a as nat == b as nat
    ensures a == b
  {
    assert (a as nat) as bv64 == a;
    assert (b as nat) as bv64 == b;
  }

  lemma TrapframeVpn()
    ensures ToVpn(MAX_VA - 2 * 4096) == TRAPFRAME
  {
    assert VaVpn(MAX_VA - 2 * 4096, 2) == 255;
    assert VaVpn(MAX_VA - 2 * 4096, 1) == 511;
    assert VaVpn(MAX_VA - 2 * 4096, 0) == 510;
  }

  // --------------------------------------------------------------------- table entries

  function AccessBits(fl: Flags): bv64 {
    (if fl.r then PTE_R else 0) | (if fl.w then PTE_W else 0) | (if fl.x then PTE_X else 0) |
    (if fl.u then PTE_U else 0)
  }

  function StateBits(fl: Flags): bv64 {
    (if fl.g then PTE_G else 0) | (if fl.a then PTE_A else 0) |
    (if fl.d then PTE_D else 0) | (if fl.cow then PTE_COW else 0)
  }

  function FlagBits(fl: Flags): bv64 {
    AccessBits(fl) | StateBits(fl)
  }

  /** The 64-bit word of a valid entry for page `num`. */
  function Word(num: bv64, fl: Flags): bv64 {
    (num << 10) | PTE_V | FlagBits(fl)
  }

  function FlagsOf(w: bv64): Flags {
    Flags(w & PTE_R != 0, w & PTE_W != 0, w & PTE_X != 0, w & PTE_U != 0,
          w & PTE_G != 0, w & PTE_A != 0, w & PTE_D != 0, w & PTE_COW != 0)
  }

  lemma FlagBitsSmall(fl: Flags)
    ensures FlagBits(fl) & !0x1fe == 0
  {
    assert AccessBits(fl) & !0x1fe == 0;
    assert StateBits(fl) & !0x1fe == 0;
  }

  lemma ShiftBack(num: bv64, low: bv64)
    requires num < 0x1000_0000_0000 && low & !0x1fe == 0
    ensures ((num << 10) | PTE_V | low) >> 10 == num
    ensures ((num << 10) | PTE_V | low) & PTE_FLAGS_MASK == PTE_V | low
  {
  }

  lemma FlagsBack(num: bv64, fl: Flags)
    ensures var w := Word(num, fl);
            && w & PTE_V != 0
            && (w & PTE_R != 0 <==> fl.r) && (w & PTE_W != 0 <==> fl.w)
            && (w & PTE_X != 0 <==> fl.x) && (w & PTE_U != 0 <==> fl.u)
            && (w & PTE_G != 0 <==> fl.g) && (w & PTE_A != 0 <==> fl.a)
            && (w & PTE_D != 0 <==> fl.d) && (w & PTE_COW != 0 <==> fl.cow)
  {
  }

  /** The page number and the flags can be read back from the word. */
  lemma WordRoundTrip(num: bv64, fl: Flags)
    requires num < 0x1000_0000_0000
    ensures var w := Word(num, fl);
            w & PTE_V != 0 && w >> 10 == num && FlagsOf(w) == fl && w & PTE_FLAGS_MASK == PTE_V | FlagBits(fl)
  {
    FlagBitsSmall(fl);
    ShiftBack(num, FlagBits(fl));
    FlagsBack(num, fl);
  }

  lemma SetBits(fl: Flags)
    ensures (FlagBits(fl) & !PTE_W) | PTE_COW == FlagBits(fl.(w := false, cow := true))
    ensures (FlagBits(fl) & !PTE_COW) | PTE_W == FlagBits(fl.(w := true, cow := false))
  {
  }

  lemma PageBits(num: bv64)
    ensures (num << 10) & 0x3ff == 0
  {
  }

  /** Clearing flag bit `c` and setting flag bit `s` leaves the page number alone. */
  lemma ThroughWord(hi: bv64, low: bv64, c: bv64, s: bv64)
    requires hi & 0x3ff == 0 && c & !0x1fe == 0
    ensures ((hi | PTE_V | low) & !c) | s == hi | PTE_V | ((low & !c) | s)
  {
    OrAnd(hi | PTE_V, low, !c);
    assert (hi | PTE_V) & !c == hi | PTE_V;
  }

  lemma OrAnd(x: bv64, y: bv64, z: bv64)
    ensures (x | y) & z == (x & z) | (y & z)
  {
  }

  /** copy_level clears W and sets COW: that is Protect. */
  lemma ProtectWord(num: bv64, e: Pte)
    requires e.fl.w
    ensures (Word(num, e.fl) & !PTE_W) | PTE_COW == Word(num, Protect(e).fl)
  {
    FlagBitsSmall(e.fl);
    SetBits(e.fl);
    PageBits(num);
    ThroughWord(num << 10, FlagBits(e.fl), PTE_W, PTE_COW);
  }

  /** Both paths of vpage_handle_cow write the entry Unprotect describes. */
  lemma UnprotectWord(num: bv64, num': bv64, e: Pte, p: nat)
    requires num < 0x1000_0000_0000
    ensures (Word(num, e.fl) & !PTE_COW) | PTE_W == Word(num, Unprotect(e, p).fl)
    ensures (num' << 10) | ((Word(num, e.fl) & PTE_FLAGS_MASK) & !PTE_COW) | PTE_W == Word(num', Unprotect(e, p).fl)
  {
    FlagBitsSmall(e.fl);
    SetBits(e.fl);
    ShiftBack(num, FlagBits(e.fl));
    PageBits(num);
    ThroughWord(num << 10, FlagBits(e.fl), PTE_COW, PTE_W);
    ThroughWord(0, FlagBits(e.fl), PTE_COW, PTE_W);
  }

  /** The flag bits vpage_map stores when it is given `flags`. */
  function MapFlags(flags: bv64): bv64 {
    flags | PTE_V | PTE_A | (if flags & PTE_W != 0 then PTE_D else 0)
  }

  lemma LeafBits(fl: Flags, p: nat, v: bool)
    ensures MapFlags(FlagBits(fl) | (if v then PTE_V else 0)) == PTE_V | FlagBits(LeafPte(p, fl).fl)
  {
  }

  lemma OrAssoc(x: bv64, y: bv64, z: bv64)
    ensures x | (y | z) == x | y | z
  {
  }

  /** vpage_map forces V and A, and D with W: that is LeafPte; it may be given
      the flags of another entry with the V bit still in them. */
  lemma LeafWord(num: bv64, fl: Flags, p: nat, v: bool)
    ensures (num << 10) | MapFlags(FlagBits(fl) | (if v then PTE_V else 0)) == Word(num, LeafPte(p, fl).fl)
  {
    LeafBits(fl, p, v);
    OrAssoc(num << 10, PTE_V, FlagBits(LeafPte(p, fl).fl));
  }

  /** is_a_next_lvl_ptr looks at R, W and X. */
  lemma PointerWord(num: bv64, e: Pte)
    ensures var w := Word(num, e.fl);
            IsPointer(e) <==> w & PTE_X == 0 && w & PTE_W == 0 && w & PTE_R == 0
  {
  }
}
