/** The reference-counted page allocator (pages.c). */
module Pages {
  import opened Common
  import opened Types
  import opened PageTables

  class Memory {
    var fr: seq<Frame>
    var rc: seq<nat>
    var free: seq<nat>
    ghost var role: seq<Role>
    ghost var held: seq<nat>
    ghost var dead: seq<Vpn>

    ghost function S(): St
      reads this
    {
      St(fr, rc, free, role, held, dead)
    }

    /** page_init: the pages from `first` to `last` are pushed one by one in
        front of the list, the others hold the kernel image. */
    constructor (image: seq<Page>, last: nat)
      requires |image| <= last
      ensures Inv(S()) && |fr| == last && Leaves(S()) == map[]
      ensures |free| == last - |image|
      ensures forall p | 0 <= p < last :: rc[p] == 0 && role[p] == if p < |image| then Image else FreePage
    {
      var frames := seq(|image|, i requires 0 <= i < |image| => Bytes(image[i])) + seq(last - |image|, _ => Unused);
      var list: seq<nat> := [];
      var p := |image|;
      while p < last
        invariant |image| <= p <= last
        invariant |list| == p - |image|
        invariant forall i | 0 <= i < |list| :: list[i] == p - 1 - i
      {
        list := [p] + list;
        p := p + 1;
      }
      fr, free := frames, list;
      rc := seq(last, _ => 0);
      role := seq(last, i => if i < |image| then Image else FreePage);
      held := seq(last, _ => 0);
      dead := seq(last, _ => FIRST);
      new;
      forall q | 0 <= q < last ensures PageOk(S(), q) && CountOk(S(), q) {
        assert q >= |image| ==> free[last - 1 - q] == q;
      }
      assert forall k | k in Leaves(S()) :: Get(Leaves(S()), k) == Leaf(S(), k);
      assert Leaves(S()) == map[];
    }

    method PageAlloc() returns (p: Option<nat>)
      requires Inv(S())
      modifies this
      ensures p.None? <==> old(free) == []
      ensures p.None? ==> S() == old(S())
      ensures p.Some? ==> p.value == old(free[0]) && p.value < |fr| && S() == AllocSt(old(S())) && Inv(S())
      ensures p.Some? ==>
                && free == old(free)[1..] && rc == old(rc)[p.value := 1] && |fr| == |old(fr)|
                && Content(fr[p.value]) == ZeroPage() && forall q | 0 <= q < |fr| && q != p.value :: fr[q] == old(fr)[q]
    {
      if free == [] {
        return None;
      }
      AllocOk(S());
      var page := free[0];
      free := free[1..];
      fr := fr[page := Zeroed];
      role := role[page := Data];
      held := held[page := 0];
      PageGet(page);
      p := Some(page);
    }

    method PageGet(p: nat)
      requires Sized(S()) && p < |fr|
      modifies this
      ensures S() == GetSt(old(S()), p)
      ensures old(rc)[p] < 256 ==> rc == old(rc)[p := (old(rc)[p] + 1) % 256]
    {
      rc := rc[p := Inc8(rc[p])];
      held := held[p := held[p] + 1];
    }

    /** The panic of a double free is what the precondition rules out. */
    method PagePut(p: nat)
      requires Sized(S()) && p < |fr| && rc[p] > 0
      modifies this
      ensures S() == PutSt(old(S()), p)
      ensures rc == old(rc)[p := old(rc)[p] - 1]
      ensures if rc[p] == 0 then free == [p] + old(free) else free == old(free) && fr == old(fr)
    {
      rc := rc[p := rc[p] - 1];
      held := held[p := if held[p] > 0 then held[p] - 1 else 0];
      if rc[p] == 0 {
        fr := fr[p := Unused];
        free := [p] + free;
        role := role[p := FreePage];
      }
    }
  }
}
