/** The block cache: 64 buffers in front of a disk, a list in order of last
    release, and write-back without any writer. To its users it is a plain
    array of blocks. */
module BlockCache {
  import opened Common

  const NBUF := 64

  /** A buffer; `blkno` is None while it holds no block. */
  datatype Slot<B> = Slot(blkno: Option<nat>, refcnt: nat, dirty: bool, valid: bool, data: B)

  /** Only a buffer nobody uses and that is clean may be given another block. */
  predicate Reusable<B>(s: Slot<B>) {
    s.refcnt == 0 && !s.dirty
  }

  /** `lru` lists the buffers, most recently released first. */
  datatype State<B> = State(disk: seq<B>, slots: seq<Slot<B>>, lru: seq<nat>)

  ghost predicate SlotOk<B>(s: State<B>, i: nat)
    requires i < |s.slots|
  {
    var x := s.slots[i];
    && (x.dirty ==> x.valid) && (x.valid ==> x.blkno.Some? && x.blkno.value < |s.disk|)
    && (x.valid && !x.dirty ==> x.data == s.disk[x.blkno.value])
  }

  /** At most one buffer per block. */
  ghost predicate Unique<B>(s: State<B>) {
    forall i, j | 0 <= i < j < |s.slots| :: s.slots[i].blkno.Some? ==> s.slots[i].blkno != s.slots[j].blkno
  }

  /** The list holds every buffer once. */
  ghost predicate Ordered<B>(s: State<B>) {
    && |s.lru| == |s.slots| && (forall j, k | 0 <= j < k < |s.lru| :: s.lru[j] != s.lru[k])
    && (forall k | 0 <= k < |s.lru| :: s.lru[k] < |s.slots|) && forall k | 0 <= k < |s.slots| :: k in s.lru
  }

  ghost predicate Inv<B>(s: State<B>) {
    Ordered(s) && Unique(s) && forall i | 0 <= i < |s.slots| :: SlotOk(s, i)
  }

  /** Buffer `i` holds block `b`. */
  predicate Holds<B>(s: State<B>, i: nat, b: nat) {
    i < |s.slots| && s.slots[i].blkno == Some(b)
  }

  /** What a user of the cache finds in block `b`. */
  ghost function View<B>(s: State<B>, b: nat): B
    requires b < |s.disk|
  {
    if i: nat :| Holds(s, i, b) && s.slots[i].valid then s.slots[i].data else s.disk[b]
  }

  lemma {:induction false} ViewHit<B>(s: State<B>, b: nat, i: nat)
    requires Unique(s) && b < |s.disk| && Holds(s, i, b)
    ensures View(s, b) == if s.slots[i].valid then s.slots[i].data else s.disk[b]
  {
    forall j: nat | Holds(s, j, b) ensures j == i {}
  }

  lemma {:induction false} ViewMiss<B>(s: State<B>, b: nat)
    requires b < |s.disk| && forall i: nat :: !Holds(s, i, b)
    ensures View(s, b) == s.disk[b]
  {
  }

  // ------------------------------------------------------------------- the elementary steps

  function Put<B>(s: State<B>, i: nat, x: Slot<B>): State<B>
    requires i < |s.slots|
  {
    s.(slots := s.slots[i := x])
  }

  /** A change of one buffer that keeps its block, or gives it a block no other
      buffer holds, keeps the invariant. */
  lemma {:induction false} PutOk<B>(s: State<B>, i: nat, x: Slot<B>)
    requires Inv(s) && i < |s.slots|
    requires x.dirty ==> x.valid
    requires x.valid ==> x.blkno.Some? && x.blkno.value < |s.disk| && (!x.dirty ==> x.data == s.disk[x.blkno.value])
    requires x.blkno.Some? ==> forall j: nat | j != i :: !Holds(s, j, x.blkno.value)
    ensures Inv(Put(s, i, x))
  {
    var s' := Put(s, i, x);
    forall j | 0 <= j < |s'.slots| ensures SlotOk(s', j) {
      assert SlotOk(s, j);
    }
    forall j, k | 0 <= j < k < |s'.slots| ensures s'.slots[j].blkno.Some? ==> s'.slots[j].blkno != s'.slots[k].blkno {
      assert j != i && x.blkno.Some? ==> !Holds(s, j, x.blkno.value);
      assert k != i && x.blkno.Some? ==> !Holds(s, k, x.blkno.value);
    }
  }

  /** Blocks that neither the old nor the new content of the buffer concerns
      look the same. */
  lemma {:induction false} PutElsewhere<B>(s: State<B>, i: nat, x: Slot<B>, b: nat)
    requires Inv(s) && i < |s.slots| && Inv(Put(s, i, x)) && b < |s.disk| && s.slots[i].blkno != Some(b) &&
             x.blkno != Some(b)
    ensures View(Put(s, i, x), b) == View(s, b)
  {
    var s' := Put(s, i, x);
    if j: nat :| Holds(s, j, b) {
      assert Holds(s', j, b);
      ViewHit(s, b, j);
      ViewHit(s', b, j);
    } else {
      forall j: nat ensures !Holds(s', j, b) {
        assert !Holds(s, j, b);
      }
    }
  }

  /** What the buffer's own block looks like afterwards. */
  lemma {:induction false} PutHere<B>(s: State<B>, i: nat, x: Slot<B>, b: nat)
    requires Inv(s) && i < |s.slots| && Inv(Put(s, i, x)) && b < |s.disk| && x.blkno == Some(b)
    ensures View(Put(s, i, x), b) == if x.valid then x.data else s.disk[b]
  {
    assert Holds(Put(s, i, x), i, b);
    ViewHit(Put(s, i, x), b, i);
  }

  /** Users see the same blocks in both states. */
  ghost predicate SameView<B>(s: State<B>, s': State<B>) {
    |s'.disk| == |s.disk| && forall b | 0 <= b < |s.disk| :: View(s', b) == View(s, b)
  }

  /** A clean buffer may be given to another block. */
  lemma {:induction false} ClaimOk<B>(s: State<B>, i: nat, b: nat)
    requires Inv(s) && i < |s.slots| && Reusable(s.slots[i]) && b < |s.disk| && forall j: nat :: !Holds(s, j, b)
    ensures var s' := Put(s, i, Slot(Some(b), 1, false, false, s.slots[i].data)); Inv(s') && SameView(s, s')
  {
    var x := Slot(Some(b), 1, false, false, s.slots[i].data);
    var s' := Put(s, i, x);
    PutOk(s, i, x);
    assert SlotOk(s, i);
    forall c | 0 <= c < |s.disk| ensures View(s', c) == View(s, c) {
      if c == b {
        PutHere(s, i, x, b);
        ViewMiss(s, b);
      } else if s.slots[i].blkno == Some(c) {
        ViewHit(s, c, i);
        forall j: nat ensures !Holds(s', j, c) {
          assert j < |s.slots| && j != i ==> s.slots[j].blkno != Some(c);
        }
        ViewMiss(s', c);
      } else {
        PutElsewhere(s, i, x, c);
      }
    }
  }

  /** Changing the reference count, reading the block in: nothing to see. */
  lemma {:induction false} QuietOk<B>(s: State<B>, i: nat, x: Slot<B>)
    requires Inv(s) && i < |s.slots| && x.blkno == s.slots[i].blkno && x.dirty == s.slots[i].dirty
    requires x.valid && x.blkno.Some? && x.blkno.value < |s.disk|
    requires x.data == if s.slots[i].valid then s.slots[i].data else s.disk[x.blkno.value]
    ensures Inv(Put(s, i, x)) && SameView(s, Put(s, i, x))
  {
    SlotFacts(s, i);
    PutOk(s, i, x);
    var b := x.blkno.value;
    forall c | 0 <= c < |s.disk| ensures View(Put(s, i, x), c) == View(s, c) {
      if c == b {
        PutHere(s, i, x, b);
        ViewHit(s, b, i);
      } else {
        PutElsewhere(s, i, x, c);
      }
    }
  }

  lemma {:induction false} SlotFacts<B>(s: State<B>, i: nat)
    requires Inv(s) && i < |s.slots|
    ensures SlotOk(s, i)
    ensures s.slots[i].blkno.Some? ==> forall j: nat | j != i :: !Holds(s, j, s.slots[i].blkno.value)
  {
    assert SlotOk(s, i);
    forall j: nat | j != i ensures s.slots[i].blkno.Some? ==> !Holds(s, j, s.slots[i].blkno.value) {
      assert j < i ==> s.slots[j].blkno.Some? ==> s.slots[j].blkno != s.slots[i].blkno;
    }
  }

  lemma {:induction false} RefOk<B>(s: State<B>, i: nat, n: nat)
    requires Inv(s) && i < |s.slots|
    ensures var s' := Put(s, i, s.slots[i].(refcnt := n)); Inv(s') && SameView(s, s')
  {
    SlotFacts(s, i);
    var x := s.slots[i].(refcnt := n);
    var s' := Put(s, i, x);
    PutOk(s, i, x);
    forall c | 0 <= c < |s.disk| ensures View(s', c) == View(s, c) {
      if s.slots[i].blkno == Some(c) {
        ViewHit(s, c, i);
        PutHere(s, i, x, c);
      } else {
        PutElsewhere(s, i, x, c);
      }
    }
  }

  /** A store into a buffer changes its block, and only that. */
  lemma {:induction false} StoreOk<B>(s: State<B>, i: nat, data: B)
    requires Inv(s) && i < |s.slots| && s.slots[i].valid
    ensures SlotOk(s, i)
    ensures var s' := Put(s, i, s.slots[i].(data := data, dirty := true));
            && Inv(s')
            && forall c | 0 <= c < |s.disk| :: View(s', c) == if s.slots[i].blkno == Some(c) then data else View(s, c)
  {
    SlotFacts(s, i);
    var x := s.slots[i].(data := data, dirty := true);
    PutOk(s, i, x);
    forall c | 0 <= c < |s.disk|
      ensures View(Put(s, i, x), c) == if s.slots[i].blkno == Some(c) then data else View(s, c)
    {
      if s.slots[i].blkno == Some(c) {
        PutHere(s, i, x, c);
      } else {
        PutElsewhere(s, i, x, c);
      }
    }
  }

  /** Dropping a buffer uncovers what is on the disk. */
  lemma {:induction false} ForgetOk<B>(s: State<B>, i: nat, b: nat)
    requires Inv(s) && Holds(s, i, b) && b < |s.disk|
    ensures var s' := Put(s, i, s.slots[i].(blkno := None, dirty := false, valid := false));
            && Inv(s') && View(s', b) == s.disk[b]
            && forall c | 0 <= c < |s.disk| && c != b :: View(s', c) == View(s, c)
  {
    SlotFacts(s, i);
    var x := s.slots[i].(blkno := None, dirty := false, valid := false);
    var s' := Put(s, i, x);
    PutOk(s, i, x);
    forall j: nat ensures !Holds(s', j, b) {}
    ViewMiss(s', b);
    forall c | 0 <= c < |s.disk| && c != b ensures View(s', c) == View(s, c) {
      PutElsewhere(s, i, x, c);
    }
  }

  /** Writing a dirty buffer back. */
  lemma {:induction false} SyncOk<B>(s: State<B>, i: nat)
    requires Inv(s) && i < |s.slots| && s.slots[i].dirty
    ensures SlotOk(s, i) && s.slots[i].blkno.Some? && s.slots[i].blkno.value < |s.disk|
    ensures var b := s.slots[i].blkno.value;
            var s' := Put(s.(disk := s.disk[b := s.slots[i].data]), i, s.slots[i].(dirty := false));
            Inv(s') && SameView(s, s')
  {
    SlotFacts(s, i);
    var b := s.slots[i].blkno.value;
    var s1 := s.(disk := s.disk[b := s.slots[i].data]);
    var s' := Put(s1, i, s.slots[i].(dirty := false));
    forall j | 0 <= j < |s'.slots| ensures SlotOk(s', j) {
      assert SlotOk(s, j);
      assert j != i ==> !Holds(s, j, b);
    }
    forall c | 0 <= c < |s.disk| ensures View(s', c) == View(s, c) {
      if j: nat :| Holds(s, j, c) {
        assert Holds(s', j, c);
        ViewHit(s, c, j);
        ViewHit(s', c, j);
      } else {
        forall j: nat ensures !Holds(s', j, c) {
          assert !Holds(s, j, c);
        }
        ViewMiss(s, c);
        ViewMiss(s', c);
        assert c != b by {
          assert Holds(s, i, b);
        }
      }
    }
  }

  // ------------------------------------------------------------------- order of release

  /** `q'` is `q` with `i` moved to the front. */
  ghost predicate Fronted(q: seq<nat>, i: nat, q': seq<nat>) {
    exists k :: 0 <= k < |q| && q[k] == i && q' == [i] + q[..k] + q[k + 1..]
  }

  lemma {:induction false} MovedFront(q: seq<nat>, i: nat)
    requires i in q
    ensures Fronted(q, i, [i] + Without(q, i))
  {
    var k := WithoutCut(q, i);
    assert [i] + (q[..k] + q[k + 1..]) == [i] + q[..k] + q[k + 1..];
  }

  /** Where the members of a list are after one of them was moved. */
  lemma {:induction false} FrontedAt(q: seq<nat>, k: nat, a: nat) returns (b: nat)
    requires k < |q| && a < |q|
    ensures var q' := [q[k]] + q[..k] + q[k + 1..];
            b < |q| == |q'| && q'[a] == q[b] && b == if a == 0 then k else if a <= k then a - 1 else a
  {
    b := if a == 0 then k else if a <= k then a - 1 else a;
  }

  lemma {:induction false} FrontedOrdered<B>(s: State<B>, s': State<B>, i: nat)
    requires Ordered(s) && |s'.slots| == |s.slots| && Fronted(s.lru, i, s'.lru)
    ensures Ordered(s')
  {
    var k :| 0 <= k < |s.lru| && s.lru[k] == i && s'.lru == [i] + s.lru[..k] + s.lru[k + 1..];
    FrontedOnce(s.lru, k);
    forall x ensures x in s'.lru <==> x in s.lru {
      FrontedHas(s.lru, k, x);
    }
    forall k | 0 <= k < |s'.lru| ensures s'.lru[k] < |s.slots| {
      assert s'.lru[k] in s.lru;
    }
  }

  lemma {:induction false} FrontedOnce(q: seq<nat>, k: nat)
    requires k < |q| && forall a, b | 0 <= a < b < |q| :: q[a] != q[b]
    ensures var q' := [q[k]] + q[..k] + q[k + 1..]; |q'| == |q| && forall a, b | 0 <= a < b < |q'| :: q'[a] != q'[b]
  {
    var q' := [q[k]] + q[..k] + q[k + 1..];
    forall a, b | 0 <= a < b < |q'| ensures q'[a] != q'[b] {
      var x := FrontedAt(q, k, a);
      var y := FrontedAt(q, k, b);
    }
  }

  lemma {:induction false} FrontedHas(q: seq<nat>, k: nat, x: nat)
    requires k < |q|
    ensures x in [q[k]] + q[..k] + q[k + 1..] <==> x in q
  {
    assert q == q[..k] + [q[k]] + q[k + 1..];
  }

  lemma {:induction false} ReleasedOk<B>(s: State<B>, i: nat, s': State<B>)
    requires Inv(s) && i < |s.slots| && s.slots[i].refcnt > 0 && s'.disk == s.disk && Fronted(s.lru, i, s'.lru)
    requires s'.slots == s.slots[i := s.slots[i].(refcnt := s.slots[i].refcnt - 1)]
    ensures Inv(s') && SameView(s, s')
  {
    var s1 := Put(s, i, s.slots[i].(refcnt := s.slots[i].refcnt - 1));
    RefOk(s, i, s.slots[i].refcnt - 1);
    FrontedOrdered(s, s', i);
    SameSlots(s1, s');
  }

  lemma {:induction false} SameSlots<B>(s: State<B>, s': State<B>)
    requires Inv(s) && Ordered(s') && s'.slots == s.slots && s'.disk == s.disk
    ensures Inv(s') && SameView(s, s')
  {
    forall i | 0 <= i < |s'.slots| ensures SlotOk(s', i) {
      assert SlotOk(s, i);
    }
    forall c | 0 <= c < |s.disk| ensures View(s', c) == View(s, c) {
      if j: nat :| Holds(s, j, c) {
        assert Holds(s', j, c);
        ViewHit(s, c, j);
        ViewHit(s', c, j);
      } else {
        forall j: nat ensures !Holds(s', j, c) {
          assert !Holds(s, j, c);
        }
      }
    }
  }

  // -------------------------------------------------------------------------- the code

  /** The buffer bcache_getblk recycles: of those it may take, the one nearest
      to the end of the list. */
  ghost predicate Victim<B>(s: State<B>, i: nat) {
    && i < |s.slots| && Reusable(s.slots[i])
    && forall j | 0 <= j < |s.slots| && j != i && Reusable(s.slots[j]) :: Ahead(s.lru, j, i)
  }

  ghost predicate Ahead(q: seq<nat>, j: nat, i: nat) {
    exists a, b :: 0 <= a < b < |q| && q[a] == j && q[b] == i
  }

  /** The list after buffers 0 to n - 1 were pushed in front, one by one. */
  ghost predicate Pushed(list: seq<nat>, n: nat) {
    |list| == n && forall k | 0 <= k < n :: list[k] == n - 1 - k
  }

  /** An empty cache shows the disk. */
  lemma {:induction false} FreshInv<B>(s: State<B>)
    requires Pushed(s.lru, |s.slots|)
    requires forall i | 0 <= i < |s.slots| :: s.slots[i].blkno == None && !s.slots[i].dirty && !s.slots[i].valid
    ensures Inv(s) && forall b | 0 <= b < |s.disk| :: View(s, b) == s.disk[b]
  {
    forall k | 0 <= k < |s.slots| ensures k in s.lru {
      assert s.lru[|s.slots| - 1 - k] == k;
    }
    forall b | 0 <= b < |s.disk| ensures View(s, b) == s.disk[b] {
      forall i: nat ensures !Holds(s, i, b) {}
      ViewMiss(s, b);
    }
  }

  // ------------------------------------------------------------ least recently released

  /** What happens to a cache: a buffer is released, or anything else. */
  datatype Event = Release(i: nat) | Use

  /** Only a release changes the list: it moves the buffer to the front. */
  ghost predicate Follows<B>(s: State<B>, s': State<B>, e: Event) {
    if e.Release? then Fronted(s.lru, e.i, s'.lru) else s'.lru == s.lru
  }

  ghost predicate RunOf<B>(states: seq<State<B>>, events: seq<Event>) {
    |states| == |events| + 1 && forall k | 0 <= k < |events| :: Follows(states[k], states[k + 1], events[k])
  }

  /** When buffer `i` was last released in the run, counting events from 1; 0 if
      it never was. */
  function LastRelease(events: seq<Event>, i: nat): (k: nat)
    ensures k <= |events| && (k > 0 ==> events[k - 1] == Release(i))
    ensures forall j | k <= j < |events| :: events[j] != Release(i)
  {
    if events == [] then 0
    else
      var n := |events| - 1;
      if events[n] == Release(i) then n + 1 else LastRelease(events[..n], i)
  }

  /** `i` was released before `j` was, in the run; of two that never were, the
      first buffer counts as older. */
  predicate Older(events: seq<Event>, i: nat, j: nat) {
    var x, y := LastRelease(events, i), LastRelease(events, j);
    x < y || (x == 0 && y == 0 && i < j)
  }

  /** The list is in order of release. */
  ghost predicate Ranked(q: seq<nat>, events: seq<Event>) {
    && (forall j, k | 0 <= j < k < |q| :: q[j] != q[k])
    && forall a, b | 0 <= a < b < |q| :: Older(events, q[b], q[a])
  }

  lemma {:induction false} LastMore(events: seq<Event>, e: Event, i: nat)
    ensures LastRelease(events + [e], i) == if e == Release(i) then |events| + 1 else LastRelease(events, i)
  {
    assert (events + [e])[..|events|] == events;
  }

  lemma {:induction false} RankedMore(q: seq<nat>, q': seq<nat>, events: seq<Event>, e: Event)
    requires Ranked(q, events) && if e.Release? then Fronted(q, e.i, q') else q' == q
    ensures Ranked(q', events + [e])
  {
    if e.Release? {
      var k :| 0 <= k < |q| && q[k] == e.i && q' == [e.i] + q[..k] + q[k + 1..];
      forall a, b | 0 <= a < b < |q'| ensures q'[a] != q'[b] && Older(events + [e], q'[b], q'[a]) {
        var x := FrontedAt(q, k, a);
        var y := FrontedAt(q, k, b);
        LastMore(events, e, q'[a]);
        LastMore(events, e, q'[b]);
        assert a > 0 ==> Older(events, q[y], q[x]);
      }
    } else {
      forall a, b | 0 <= a < b < |q'| ensures Older(events + [e], q'[b], q'[a]) {
        assert Older(events, q[b], q[a]);
        LastMore(events, e, q[a]);
        LastMore(events, e, q[b]);
      }
    }
  }

  lemma {:induction false} RunRanked<B>(states: seq<State<B>>, events: seq<Event>, n: nat)
    requires RunOf(states, events) && Pushed(states[0].lru, n)
    ensures Ranked(states[|events|].lru, events)
    decreases |events|
  {
    if events != [] {
      var k := |events| - 1;
      RunRanked(states[..k + 1], events[..k], n);
      RankedMore(states[k].lru, states[k + 1].lru, events[..k], events[k]);
      assert events[..k] + [events[k]] == events;
    }
  }

  /** Over every run from an empty cache: of the buffers that may be recycled,
      the one that is was released longest ago, or never. */
  lemma {:induction false} RecyclesOldest<B>(states: seq<State<B>>, events: seq<Event>, n: nat, i: nat)
    requires RunOf(states, events) && Pushed(states[0].lru, n) && Victim(states[|events|], i)
    ensures var s := states[|events|];
            forall j | 0 <= j < |s.slots| && j != i && Reusable(s.slots[j]) :: Older(events, i, j)
  {
    RunRanked(states, events, n);
    var s := states[|events|];
    forall j | 0 <= j < |s.slots| && j != i && Reusable(s.slots[j]) ensures Older(events, i, j) {
      var a, b :| 0 <= a < b < |s.lru| && s.lru[a] == j && s.lru[b] == i;
    }
  }

  class Cache<B(0)> {
    var disk: seq<B>
    var slots: seq<Slot<B>>
    var lru: seq<nat>

    ghost function S(): State<B>
      reads this
    {
      State(disk, slots, lru)
    }

    /** bcache_init: every buffer is pushed in front. */
    constructor (disk: seq<B>, blank: B)
      ensures Inv(S()) && this.disk == disk && |slots| == NBUF && Pushed(lru, NBUF)
      ensures forall i | 0 <= i < NBUF :: slots[i].blkno == None && Reusable(slots[i])
      ensures forall b | 0 <= b < |disk| :: View(S(), b) == disk[b]
    {
      var list: seq<nat>, i := [], 0;
      while i < NBUF
        invariant 0 <= i <= NBUF && Pushed(list, i)
      {
        list, i := [i] + list, i + 1;
      }
      this.disk, lru := disk, list;
      slots := seq(NBUF, _ => Slot(None, 0, false, false, blank));
      new;
      FreshInv(S());
    }

    /** cache_request_locked */
    method Request(b: nat) returns (slot: Option<nat>)
      requires Inv(S())
      ensures slot.Some? ==> Holds(S(), slot.value, b)
      ensures slot.None? ==> forall i: nat :: !Holds(S(), i, b)
    {
      var k := 0;
      while k < |lru|
        invariant 0 <= k <= |lru| && forall j | 0 <= j < k :: !Holds(S(), lru[j], b)
      {
        if slots[lru[k]].blkno == Some(b) {
          return Some(lru[k]);
        }
        k := k + 1;
      }
      forall i: nat ensures !Holds(S(), i, b) {
        if i < |slots| {
          assert i in lru;
        }
      }
      return None;
    }

    /** find_reusable_locked: from the tail of the list. */
    method FindReusable() returns (slot: Option<nat>)
      requires Inv(S())
      ensures slot.Some? ==> Victim(S(), slot.value)
      ensures slot.None? ==> forall i | 0 <= i < |slots| :: !Reusable(slots[i])
    {
      var k := |lru|;
      while k > 0
        invariant 0 <= k <= |lru| && forall j | k <= j < |lru| :: !Reusable(slots[lru[j]])
      {
        k := k - 1;
        if Reusable(slots[lru[k]]) {
          forall j | 0 <= j < |slots| && j != lru[k] && Reusable(slots[j]) ensures Ahead(lru, j, lru[k]) {
            assert j in lru;
          }
          return Some(lru[k]);
        }
      }
      forall i | 0 <= i < |slots| ensures !Reusable(slots[i]) {
        assert i in lru;
      }
      return None;
    }

    /** bcache_getblk; None stands for the panic when every buffer is in use or
        dirty. */
    method GetBlk(b: nat) returns (slot: Option<nat>)
      requires Inv(S()) && b < |disk|
      modifies this`slots
      ensures slot.None? <==> (forall i | 0 <= i < |old(slots)| :: !Holds(old(S()), i, b) && !Reusable(old(slots)[i]))
      ensures slot.None? ==> S() == old(S())
      ensures slot.Some? ==>
                var i := slot.value;
                && Inv(S()) && SameView(old(S()), S()) && Holds(S(), i, b) && |slots| == |old(slots)|
                && (forall j | 0 <= j < |slots| && j != i :: slots[j] == old(slots)[j])
                && (if Holds(old(S()), i, b) then slots[i] == old(slots)[i].(refcnt := old(slots)[i].refcnt + 1)
                    else Victim(old(S()), i) && slots[i].refcnt == 1 && !slots[i].dirty && !slots[i].valid)
    {
      slot := Request(b);
      if slot.Some? {
        RefOk(S(), slot.value, slots[slot.value].refcnt + 1);
        slots := slots[slot.value := slots[slot.value].(refcnt := slots[slot.value].refcnt + 1)];
        return;
      }
      slot := FindReusable();
      if slot.Some? {
        ClaimOk(S(), slot.value, b);
        slots := slots[slot.value := Slot(Some(b), 1, false, false, slots[slot.value].data)];
      }
    }

    /** bcache_read: the buffer holds what the block looks like. */
    method Read(b: nat) returns (slot: Option<nat>)
      requires Inv(S()) && b < |disk|
      modifies this`slots
      ensures slot.None? <==> (forall i | 0 <= i < |old(slots)| :: !Holds(old(S()), i, b) && !Reusable(old(slots)[i]))
      ensures slot.None? ==> S() == old(S())
      ensures slot.Some? ==>
                var i := slot.value;
                && Inv(S()) && SameView(old(S()), S()) && Holds(S(), i, b) && |slots| == |old(slots)|
                && slots[i].valid && slots[i].data == View(S(), b)
                && (forall j | 0 <= j < |slots| && j != i :: slots[j] == old(slots)[j])
                && (if Holds(old(S()), i, b)
                    then slots[i].refcnt == old(slots)[i].refcnt + 1 && slots[i].dirty == old(slots)[i].dirty
                    else Victim(old(S()), i) && slots[i].refcnt == 1 && !slots[i].dirty)
    {
      slot := GetBlk(b);
      if slot.Some? {
        var i := slot.value;
        if !slots[i].valid {
          QuietOk(S(), i, slots[i].(valid := true, data := disk[b]));
          slots := slots[i := slots[i].(valid := true, data := disk[b])];
        }
        ViewHit(S(), b, i);
      }
    }

    /** A store into a buffer and bcache_mark_dirty. */
    method Store(i: nat, data: B)
      requires Inv(S()) && i < |slots| && slots[i].valid && slots[i].refcnt > 0
      modifies this`slots
      ensures Inv(S())
      ensures forall c | 0 <= c < |disk| ::
                View(S(), c) == if old(slots)[i].blkno == Some(c) then data else View(old(S()), c)
      ensures slots == old(slots)[i := old(slots)[i].(data := data, dirty := true)]
    {
      StoreOk(S(), i, data);
      slots := slots[i := slots[i].(data := data, dirty := true)];
    }

    /** bcache_sync */
    method Sync(i: nat)
      requires Inv(S()) && i < |slots|
      modifies this`slots, this`disk
      ensures Inv(S()) && SameView(old(S()), S()) && !slots[i].dirty
    {
      if slots[i].dirty {
        SyncOk(S(), i);
        disk := disk[slots[i].blkno.value := slots[i].data];
        slots := slots[i := slots[i].(dirty := false)];
      }
    }

    /** bcache_release: one user less, and the buffer goes to the front; the
        others keep their order. */
    method Release(i: nat)
      requires Inv(S()) && i < |slots| && slots[i].refcnt > 0
      modifies this`slots, this`lru
      ensures Inv(S()) && SameView(old(S()), S())
      ensures slots == old(slots)[i := old(slots)[i].(refcnt := old(slots)[i].refcnt - 1)]
      ensures lru != [] && lru[0] == i && Fronted(old(lru), i, lru) && Follows(old(S()), S(), Event.Release(i))
    {
      ghost var s := S();
      MovedFront(lru, i);
      slots := slots[i := slots[i].(refcnt := slots[i].refcnt - 1)];
      lru := [i] + Without(lru, i);
      ReleasedOk(s, i, S());
    }

    /** bcache_invalidate */
    method Invalidate(b: nat)
      requires Inv(S()) && b < |disk|
      modifies this`slots
      ensures Inv(S()) && View(S(), b) == disk[b]
      ensures forall c | 0 <= c < |disk| && c != b :: View(S(), c) == View(old(S()), c)
      ensures |slots| == |old(slots)| && forall i | 0 <= i < |slots| ::
                if Holds(old(S()), i, b) then slots[i].blkno == None && slots[i].refcnt == old(slots)[i].refcnt
                else slots[i] == old(slots)[i]
    {
      var slot := Request(b);
      if slot.Some? {
        ForgetOk(S(), slot.value, b);
        SlotFacts(S(), slot.value);
        slots := slots[slot.value := slots[slot.value].(blkno := None, dirty := false, valid := false)];
      } else {
        ViewMiss(S(), b);
      }
    }
  }

  lemma {:induction false} LastIsVictim<B>(s: State<B>, i: nat)
    requires Ordered(s) && Victim(s, i) && Reusable(s.slots[s.lru[|s.lru| - 1]])
    ensures i == s.lru[|s.lru| - 1]
  {
    var last := s.lru[|s.lru| - 1];
    assert !Ahead(s.lru, last, i);
  }

  /** Two reads through an empty cache: the buffer just released is not taken
      while others are empty. */
  method TwoReads<B(0)>(disk: seq<B>, blank: B, b: nat, c: nat) returns (first: Option<nat>, second: Option<nat>)
    requires b < |disk| && c < |disk| && b != c
    ensures first == Some(0) && second == Some(1)
  {
    var cache := new Cache(disk, blank);
    ghost var s := cache.S();
    assert Reusable(s.slots[0]);
    first := cache.Read(b);
    LastIsVictim(s, first.value);
    cache.Release(0);
    s := cache.S();
    assert s.lru[NBUF - 1] == 1 && Reusable(s.slots[1]);
    second := cache.Read(c);
    LastIsVictim(s, second.value);
  }
}
