/** The split virtqueue of the block driver (section 2.7 of VIRTIO 1.2) as a
    protocol: any number of requests, the device, one interrupt handler, and
    the tasks that give descriptors back, in any interleaving. */
module Virtqueue {
  import opened Common
  import opened Modular


  /** A descriptor: its link, and whether VIRTQ_DESC_F_NEXT is set. */
  datatype Desc = Desc(next: nat, more: bool)

  datatype Elem = Elem(id: nat, len: nat)

  /** The three descriptors of a request: header, data, status. */
  datatype Trip = Trip(a: nat, b: nat, c: nat)

  /** How far a request that holds descriptors has come. */
  datatype Stage = Submitted | Taken | Completed(len: nat) | Posted(len: nat) | Walked(len: nat)

  /** The descriptor table with the driver's free list and request table. */
  datatype Table = Table(desc: seq<Desc>, head: nat, inflight: seq<nat>)

  /** The rings; all four indices are 16 bits wide. */
  datatype Rings = Rings(avail: seq<nat>, availIdx: nat, devIdx: nat, used: seq<Elem>, usedIdx: nat, lastSeen: nat)

  /** The requests by program point: with a slot but not submitted, holding
      descriptors, given back but the slot not yet, and returned. */
  datatype Reqs = Reqs(reserved: set<nat>, live: map<nat, Trip>, stage: map<nat, Stage>,
                       linked: map<nat, nat>, done: map<nat, nat>)

  /** Ghost history: the free chain, who owns a descriptor, the requests in
      order of submission (`taken` of them seen by the device) and of
      completion (`seen` of them passed by the handler; `busy` says that it
      has posted the next one already). */
  datatype History = History(free: seq<nat>, place: seq<Place>, subs: seq<nat>, taken: nat,
                             log: seq<Elem>, seen: nat, busy: bool)

  /** A descriptor is the k-th from the end of the free chain, or in use. */
  datatype Place = Free(k: nat) | Of(r: nat)

  datatype Q = Q(n: nat, t: Table, rings: Rings, sem: nat, reqs: Reqs, h: History)

  datatype Action =
    | Acquire(r: nat)            // sem_wait on the free slots succeeds
    | Submit(r: nat)             // submit_req
    | Fetch                      // the device takes the next available chain
    | Complete(r: nat, len: nat) // the device is done with a chain, in any order
    | Post                       // the handler posts the next completion
    | Advance                    // the handler moves on
    | Walk(r: nat)               // release_desc_chain, up to the lock
    | Link(r: nat)               // release_desc_chain, under the lock
    | Release(r: nat)            // sem_post on the free slots

  const WRAP := 65536

  function Inc16(i: nat): nat {
    if i + 1 == WRAP then 0 else i + 1
  }

  // ----------------------------------------------------------------------------- steps

  function NextOf(t: Table, d: nat): nat {
    if d < |t.desc| then t.desc[d].next else 0
  }

  function Put<T>(s: seq<T>, i: nat, x: T): (r: seq<T>)
    ensures |r| == |s|
  {
    if i < |s| then s[i := x] else s
  }

  /** `s` with new elements at the three places of `p`. */
  function PutTrip<T>(s: seq<T>, p: Trip, x: T, y: T, z: T): (r: seq<T>)
    ensures |r| == |s|
    ensures forall d | 0 <= d < |s| && d != p.a && d != p.b && d != p.c :: r[d] == s[d]
    ensures p.a < |s| && p.a != p.b && p.a != p.c ==> r[p.a] == x
    ensures p.b < |s| && p.b != p.c ==> r[p.b] == y
    ensures p.c < |s| ==> r[p.c] == z
  {
    Put(Put(Put(s, p.a, x), p.b, y), p.c, z)
  }

  /** What submit_req takes from the free list, by following its links. */
  function Picked(t: Table): Trip {
    var i0 := t.head;
    var i1 := NextOf(t, i0);
    Trip(i0, i1, NextOf(t, i1))
  }

  function SubmitTable(t: Table, r: nat): Table {
    var p := Picked(t);
    var rest := NextOf(t, p.c);
    Table(PutTrip(t.desc, p, Desc(p.b, true), Desc(p.c, true), Desc(0, false)), rest, Put(t.inflight, p.a, r))
  }

  /** The walk of release_desc_chain: clears the flags up to the last one. */
  function WalkTable(t: Table, p: Trip): Table {
    t.(desc := Put(Put(t.desc, p.a, Desc(NextOf(t, p.a), false)), p.b, Desc(NextOf(t, p.b), false)))
  }

  function LinkTable(t: Table, p: Trip): Table {
    Table(Put(t.desc, p.c, Desc(t.head, false)), p.a, t.inflight)
  }

  function ReqOf(t: Table, d: nat): nat {
    if d < |t.inflight| then t.inflight[d] else 0
  }

  predicate Enabled(q: Q, act: Action) {
    match act
    case Acquire(r) => q.sem > 0 && !Known(q.reqs, r)
    case Submit(r) => r in q.reqs.reserved
    case Fetch => q.rings.devIdx != q.rings.availIdx
    case Complete(r, _) => Get(q.reqs.stage, r) == Some(Taken)
    case Post => !q.h.busy && q.rings.lastSeen != q.rings.usedIdx
    case Advance => q.h.busy
    case Walk(r) => r in q.reqs.stage && q.reqs.stage[r].Posted?
    case Link(r) => r in q.reqs.stage && q.reqs.stage[r].Walked?
    case Release(r) => r in q.reqs.linked
  }

  /** The request has been made before. */
  predicate Known(reqs: Reqs, r: nat) {
    r in reqs.reserved || r in reqs.live || r in reqs.linked || r in reqs.done
  }

  function TripOf(q: Q, r: nat): Trip {
    if r in q.reqs.live then q.reqs.live[r] else Trip(0, 0, 0)
  }

  function LenOf(q: Q, r: nat): nat {
    if r in q.reqs.stage && (q.reqs.stage[r].Completed? || q.reqs.stage[r].Posted? || q.reqs.stage[r].Walked?)
    then q.reqs.stage[r].len else 0
  }

  function Slot(q: Q, i: nat): nat {
    if q.n == 0 then 0 else i % q.n
  }

  function SetStage(reqs: Reqs, r: nat, s: Stage): Reqs {
    reqs.(stage := reqs.stage[r := s])
  }

  function DoAcquire(q: Q, r: nat): Q {
    q.(sem := if q.sem > 0 then q.sem - 1 else 0, reqs := q.reqs.(reserved := q.reqs.reserved + {r}))
  }

  function DoSubmit(q: Q, r: nat): Q {
    var p := Picked(q.t);
    q.(t := SubmitTable(q.t, r),
       rings := q.rings.(avail := Put(q.rings.avail, Slot(q, q.rings.availIdx), p.a),
         availIdx := Inc16(q.rings.availIdx)),
       reqs := Reqs(q.reqs.reserved - {r}, q.reqs.live[r := p], q.reqs.stage[r := Submitted], q.reqs.linked,
         q.reqs.done),
       h := q.h.(free := if |q.h.free| >= 3 then q.h.free[3..] else [],
                 place := PutTrip(q.h.place, p, Of(r), Of(r), Of(r)),
                 subs := q.h.subs + [r]))
  }

  /** The request behind the chain the device finds next in the available ring. */
  function FetchedReq(q: Q): nat {
    var i := Slot(q, q.rings.devIdx);
    ReqOf(q.t, if i < |q.rings.avail| then q.rings.avail[i] else 0)
  }

  function DoFetch(q: Q): Q {
    q.(rings := q.rings.(devIdx := Inc16(q.rings.devIdx)),
       reqs := SetStage(q.reqs, FetchedReq(q), Taken),
       h := q.h.(taken := q.h.taken + 1))
  }

  function DoComplete(q: Q, r: nat, len: nat): Q {
    var e := Elem(TripOf(q, r).a, len);
    q.(rings := q.rings.(used := Put(q.rings.used, Slot(q, q.rings.usedIdx), e), usedIdx := Inc16(q.rings.usedIdx)),
       reqs := SetStage(q.reqs, r, Completed(len)),
       h := q.h.(log := q.h.log + [Elem(r, len)]))
  }

  /** The used element the handler reads. */
  function SeenElem(q: Q): Elem {
    var i := Slot(q, q.rings.lastSeen);
    if i < |q.rings.used| then q.rings.used[i] else Elem(0, 0)
  }

  function DoPost(q: Q): Q {
    q.(reqs := SetStage(q.reqs, ReqOf(q.t, SeenElem(q).id), Posted(SeenElem(q).len)),
       h := q.h.(busy := true))
  }

  function DoAdvance(q: Q): Q {
    q.(rings := q.rings.(lastSeen := Inc16(q.rings.lastSeen)), h := q.h.(seen := q.h.seen + 1, busy := false))
  }

  function DoWalk(q: Q, r: nat): Q {
    q.(t := WalkTable(q.t, TripOf(q, r)), reqs := SetStage(q.reqs, r, Walked(LenOf(q, r))))
  }

  function DoLink(q: Q, r: nat): Q {
    var p, m := TripOf(q, r), |q.h.free|;
    q.(t := LinkTable(q.t, p),
       reqs := Reqs(q.reqs.reserved, q.reqs.live - {r}, q.reqs.stage - {r}, q.reqs.linked[r := LenOf(q, r)],
         q.reqs.done),
       h := q.h.(free := [p.a, p.b, p.c] + q.h.free,
                 place := PutTrip(q.h.place, p, Free(m + 3), Free(m + 2), Free(m + 1))))
  }

  function DoRelease(q: Q, r: nat): Q {
    q.(sem := q.sem + 1,
       reqs := Reqs(q.reqs.reserved, q.reqs.live, q.reqs.stage, q.reqs.linked - {r},
                    q.reqs.done[r := if r in q.reqs.linked then q.reqs.linked[r] else 0]))
  }

  function Step(q: Q, act: Action): Q {
    match act
    case Acquire(r) => DoAcquire(q, r)
    case Submit(r) => DoSubmit(q, r)
    case Fetch => DoFetch(q)
    case Complete(r, len) => DoComplete(q, r, len)
    case Post => DoPost(q)
    case Advance => DoAdvance(q)
    case Walk(r) => DoWalk(q, r)
    case Link(r) => DoLink(q, r)
    case Release(r) => DoRelease(q, r)
  }

  // ------------------------------------------------------------------------ invariants

  ghost predicate Sized(q: Q) {
    && q.n >= 3 && Divides(q.n) && q.n < WRAP
    && |q.t.desc| == q.n && |q.t.inflight| == q.n && |q.rings.avail| == q.n && |q.rings.used| == q.n
    && |q.h.place| == q.n && q.reqs.stage.Keys == q.reqs.live.Keys
    && q.h.taken <= |q.h.subs| && q.h.seen + (if q.h.busy then 1 else 0) <= |q.h.log|
  }

  /** A queue size that the 16-bit indices wrap evenly on: a power of two. */
  ghost predicate Divides(n: nat) {
    exists m: nat :: n * m == WRAP
  }

  // The descriptors.

  ghost predicate TripOk(q: Q, r: nat)
    requires Sized(q) && r in q.reqs.live
  {
    var p, more := q.reqs.live[r], !q.reqs.stage[r].Walked?;
    && p.a < q.n && p.b < q.n && p.c < q.n && p.a != p.b && p.a != p.c && p.b != p.c
    && q.h.place[p.a] == Of(r) && q.h.place[p.b] == Of(r) && q.h.place[p.c] == Of(r)
    && q.t.desc[p.a] == Desc(p.b, more) && q.t.desc[p.b] == Desc(p.c, more) && !q.t.desc[p.c].more
    && q.t.inflight[p.a] == r
  }

  ghost predicate FreeOk(q: Q, i: nat)
    requires Sized(q) && i < |q.h.free|
  {
    var free := q.h.free;
    && free[i] < q.n && q.h.place[free[i]] == Free(|free| - i)
    && (i + 1 < |free| ==> q.t.desc[free[i]].next == free[i + 1])
  }

  ghost predicate PlaceOk(q: Q, d: nat)
    requires Sized(q) && d < q.n
  {
    match q.h.place[d]
    case Free(k) => 1 <= k <= |q.h.free| && q.h.free[|q.h.free| - k] == d
    case Of(r) => r in q.reqs.live && (d == q.reqs.live[r].a || d == q.reqs.live[r].b || d == q.reqs.live[r].c)
  }

  /** One free chain and disjoint chains of three, and nothing else. */
  ghost predicate Descriptors(q: Q)
    requires Sized(q)
  {
    FreeChain(q) && Trips(q) && Places(q) && |q.h.free| + 3 * |q.reqs.live| == q.n
  }

  ghost predicate FreeChain(q: Q)
    requires Sized(q)
  {
    (q.h.free != [] ==> q.t.head == q.h.free[0]) && forall i | 0 <= i < |q.h.free| :: FreeOk(q, i)
  }

  ghost predicate Trips(q: Q)
    requires Sized(q)
  {
    forall r | r in q.reqs.live :: TripOk(q, r)
  }

  ghost predicate Places(q: Q)
    requires Sized(q)
  {
    forall d | 0 <= d < q.n :: PlaceOk(q, d)
  }

  // The slots.

  ghost predicate Slots(q: Q) {
    && q.sem + |q.reqs.reserved| + |q.reqs.live| + |q.reqs.linked| == q.n / 3
    && forall r :: AtOnePoint(q.reqs, r)
  }

  ghost predicate AtOnePoint(reqs: Reqs, r: nat) {
    && (r in reqs.reserved ==> r !in reqs.live && r !in reqs.linked && r !in reqs.done)
    && (r in reqs.live ==> r !in reqs.linked && r !in reqs.done)
    && (r in reqs.linked ==> r !in reqs.done)
  }

  // The available ring.

  ghost predicate SubOk(q: Q, j: nat)
    requires Sized(q) && j < |q.h.subs|
  {
    var r := q.h.subs[j];
    && r in q.reqs.live && q.reqs.stage[r] == Submitted && q.rings.avail[j % q.n] == q.reqs.live[r].a
    && forall i | q.h.taken <= i < j :: q.h.subs[i] != r
  }

  /** The device will find request `r` in the available ring. */
  ghost predicate Awaits(q: Q, r: nat) {
    exists j :: q.h.taken <= j < |q.h.subs| && q.h.subs[j] == r
  }

  ghost predicate Available(q: Q)
    requires Sized(q)
  {
    && q.rings.availIdx == |q.h.subs| % WRAP && q.rings.devIdx == q.h.taken % WRAP
    && (forall j | q.h.taken <= j < |q.h.subs| :: SubOk(q, j))
    && (forall r | r in q.reqs.stage && q.reqs.stage[r] == Submitted :: Awaits(q, r))
  }

  // The used ring.

  /** The first completion the handler has not posted. */
  function Unposted(h: History): nat {
    h.seen + if h.busy then 1 else 0
  }

  ghost predicate UsedOk(q: Q, j: nat)
    requires Sized(q) && j < |q.h.log|
  {
    var e := q.h.log[j];
    && e.id in q.reqs.live && q.reqs.stage[e.id] == Completed(e.len)
    && q.rings.used[j % q.n] == Elem(q.reqs.live[e.id].a, e.len)
  }

  ghost predicate Used(q: Q)
    requires Sized(q)
  {
    && q.rings.usedIdx == |q.h.log| % WRAP && q.rings.lastSeen == q.h.seen % WRAP
    && (forall j | Unposted(q.h) <= j < |q.h.log| :: UsedOk(q, j))
  }

  // The completions.

  /** The length a request was posted with. */
  function Outcome(reqs: Reqs, r: nat): Option<nat> {
    if r in reqs.stage then
      match reqs.stage[r]
      case Posted(len) => Some(len)
      case Walked(len) => Some(len)
      case _ => None
    else if r in reqs.linked then Some(reqs.linked[r])
    else if r in reqs.done then Some(reqs.done[r])
    else None
  }

  ghost predicate LogOk(q: Q, j: nat)
    requires Sized(q) && j < |q.h.log|
  {
    && (j < Unposted(q.h) ==> Outcome(q.reqs, q.h.log[j].id) == Some(q.h.log[j].len))
    && forall i | 0 <= i < j :: q.h.log[i].id != q.h.log[j].id
  }

  /** A request that the device completed is in the log. */
  ghost predicate Logged(q: Q, r: nat) {
    exists j :: 0 <= j < |q.h.log| && q.h.log[j].id == r
  }

  ghost predicate Completions(q: Q)
    requires Sized(q)
  {
    && (forall j | 0 <= j < |q.h.log| :: LogOk(q, j))
    && (forall r :: (Outcome(q.reqs, r).Some? || (r in q.reqs.stage && q.reqs.stage[r].Completed?)) ==> Logged(q, r))
  }

  ghost predicate Inv(q: Q) {
    Sized(q) && Descriptors(q) && Slots(q) && Available(q) && Used(q) && Completions(q)
  }

  // ------------------------------------------------------------- the steps keep the invariant

  lemma {:induction false} IncMod(i: nat)
    ensures Inc16(i % WRAP) == (i + 1) % WRAP
  {
  }

  // Each part of the invariant looks at some components only.

  ghost predicate SameTable(q: Q, q': Q) {
    && q'.n == q.n && q'.t == q.t && q'.h.free == q.h.free && q'.h.place == q.h.place && q'.reqs.live == q.reqs.live
    && forall r | r in q.reqs.live :: r in q.reqs.stage && r in q'.reqs.stage &&
         (q'.reqs.stage[r].Walked? <==> q.reqs.stage[r].Walked?)
  }

  lemma {:induction false} DescriptorsFrame(q: Q, q': Q)
    requires Sized(q) && Sized(q') && Descriptors(q) && SameTable(q, q')
    ensures Descriptors(q')
  {
    forall i | 0 <= i < |q.h.free| ensures FreeOk(q', i) {
      assert FreeOk(q, i);
    }
    forall r | r in q.reqs.live ensures TripOk(q', r) {
      assert TripOk(q, r);
    }
    forall d | 0 <= d < q.n ensures PlaceOk(q', d) {
      assert PlaceOk(q, d);
    }
  }

  ghost predicate SameAvail(q: Q, q': Q) {
    && q'.n == q.n && q'.rings.avail == q.rings.avail && q'.rings.availIdx == q.rings.availIdx
    && q'.rings.devIdx == q.rings.devIdx && q'.h.subs == q.h.subs && q'.h.taken == q.h.taken
    && SameWaiting(q.reqs, q'.reqs)
  }

  ghost predicate SameWaiting(reqs: Reqs, reqs': Reqs) {
    forall r :: Waiting(reqs, r) == Waiting(reqs', r)
  }

  /** The head of the chain of a request the device has not taken yet. */
  function Waiting(reqs: Reqs, r: nat): Option<nat> {
    if r in reqs.live && Get(reqs.stage, r) == Some(Submitted) then Some(reqs.live[r].a) else None
  }

  lemma {:induction false} AvailableFrame(q: Q, q': Q)
    requires Sized(q) && Sized(q') && Available(q) && SameAvail(q, q')
    ensures Available(q')
  {
    forall j | q.h.taken <= j < |q.h.subs| ensures SubOk(q', j) {
      assert SubOk(q, j);
      assert Waiting(q.reqs, q.h.subs[j]) == Waiting(q'.reqs, q.h.subs[j]);
    }
    forall r | r in q'.reqs.stage && q'.reqs.stage[r] == Submitted ensures Awaits(q', r) {
      assert Waiting(q.reqs, r) == Waiting(q'.reqs, r);
      assert Awaits(q, r);
    }
  }

  ghost predicate SameUsed(q: Q, q': Q) {
    && q'.n == q.n && q'.rings.used == q.rings.used && q'.rings.usedIdx == q.rings.usedIdx
    && q'.rings.lastSeen == q.rings.lastSeen && q'.h.log == q.h.log && q'.h.seen == q.h.seen && q'.h.busy == q.h.busy
    && SameFinished(q.reqs, q'.reqs)
  }

  ghost predicate SameFinished(reqs: Reqs, reqs': Reqs) {
    forall r :: Finished(reqs, r) == Finished(reqs', r)
  }

  /** The used element of a request the handler has not posted yet. */
  function Finished(reqs: Reqs, r: nat): Option<Elem> {
    if r in reqs.live && r in reqs.stage && reqs.stage[r].Completed?
    then Some(Elem(reqs.live[r].a, reqs.stage[r].len)) else None
  }

  lemma {:induction false} UsedFrame(q: Q, q': Q)
    requires Sized(q) && Sized(q') && Used(q) && SameUsed(q, q')
    ensures Used(q')
  {
    forall j | Unposted(q.h) <= j < |q.h.log| ensures UsedOk(q', j) {
      assert UsedOk(q, j);
      assert Finished(q.reqs, q.h.log[j].id) == Finished(q'.reqs, q.h.log[j].id);
    }
  }

  ghost predicate SameLog(q: Q, q': Q) {
    && q'.h.log == q.h.log && Unposted(q'.h) == Unposted(q.h)
    && SameOutcome(q.reqs, q'.reqs) && SameFinished(q.reqs, q'.reqs)
  }

  ghost predicate SameOutcome(reqs: Reqs, reqs': Reqs) {
    forall r :: Outcome(reqs, r) == Outcome(reqs', r)
  }

  lemma {:induction false} SameAll(reqs: Reqs, reqs': Reqs)
    requires reqs'.live == reqs.live && reqs'.stage == reqs.stage && reqs'.linked == reqs.linked &&
             reqs'.done == reqs.done
    ensures SameWaiting(reqs, reqs') && SameFinished(reqs, reqs') && SameOutcome(reqs, reqs')
  {
  }

  lemma {:induction false} CompletionsFrame(q: Q, q': Q)
    requires Sized(q) && Sized(q') && Completions(q) && SameLog(q, q')
    ensures Completions(q')
  {
    forall j | 0 <= j < |q.h.log| ensures LogOk(q', j) {
      assert LogOk(q, j);
      assert Outcome(q.reqs, q.h.log[j].id) == Outcome(q'.reqs, q.h.log[j].id);
    }
    forall r | Outcome(q'.reqs, r).Some? || (r in q'.reqs.stage && q'.reqs.stage[r].Completed?) ensures Logged(q', r) {
      assert Outcome(q.reqs, r) == Outcome(q'.reqs, r) && Finished(q.reqs, r) == Finished(q'.reqs, r);
      assert Logged(q, r);
    }
  }

  lemma {:induction false} SlotsFrame(q: Q, q': Q)
    requires Slots(q) && q'.n == q.n && q'.sem == q.sem && q'.reqs.reserved == q.reqs.reserved
    requires q'.reqs.live == q.reqs.live && q'.reqs.linked == q.reqs.linked && q'.reqs.done == q.reqs.done
    ensures Slots(q')
  {
    forall r ensures AtOnePoint(q'.reqs, r) {
      assert AtOnePoint(q.reqs, r);
    }
  }

  /** A change of stage that moves no descriptor. */
  lemma {:induction false} StageFrame(q: Q, q': Q, r: nat, s: Stage)
    requires Sized(q) && Sized(q') && Descriptors(q) && Slots(q)
    requires q'.n == q.n && q'.t == q.t && q'.sem == q.sem && q'.h.free == q.h.free && q'.h.place == q.h.place
    requires q'.reqs == SetStage(q.reqs, r, s) && r in q.reqs.stage && !q.reqs.stage[r].Walked? && !s.Walked?
    ensures Descriptors(q') && Slots(q')
  {
    SlotsFrame(q, q');
    DescriptorsFrame(q, q');
  }

  // The semaphore of the free slots.

  lemma {:induction false} AcquireKeeps(q: Q, r: nat)
    requires Inv(q) && Enabled(q, Acquire(r))
    ensures Inv(DoAcquire(q, r))
  {
    var q' := DoAcquire(q, r);
    AcquireSlots(q, r);
    SameAll(q.reqs, q'.reqs);
    DescriptorsFrame(q, q');
    AvailableFrame(q, q');
    UsedFrame(q, q');
    CompletionsFrame(q, q');
  }

  lemma {:induction false} AcquireSlots(q: Q, r: nat)
    requires Slots(q) && Enabled(q, Acquire(r))
    ensures Slots(DoAcquire(q, r))
  {
    forall x ensures AtOnePoint(DoAcquire(q, r).reqs, x) {
      assert AtOnePoint(q.reqs, x);
    }
  }

  lemma {:induction false} ReleaseKeeps(q: Q, r: nat)
    requires Inv(q) && Enabled(q, Release(r))
    ensures Inv(DoRelease(q, r))
  {
    var q' := DoRelease(q, r);
    ReleaseSame(q, r);
    DescriptorsFrame(q, q');
    AvailableFrame(q, q');
    UsedFrame(q, q');
    CompletionsFrame(q, q');
    ReleaseSlots(q, r);
  }

  lemma {:induction false} ReleaseSlots(q: Q, r: nat)
    requires Slots(q) && Enabled(q, Release(r))
    ensures Slots(DoRelease(q, r))
  {
    RemoveOne(q.reqs.linked, r);
    forall x ensures AtOnePoint(DoRelease(q, r).reqs, x) {
      assert AtOnePoint(q.reqs, x);
    }
  }

  lemma {:induction false} RemoveOne<V>(m: map<nat, V>, r: nat)
    requires r in m
    ensures |m - {r}| == |m| - 1
  {
    assert (m - {r}).Keys == m.Keys - {r};
    KeysCount(m);
    KeysCount(m - {r});
  }

  lemma {:induction false} AddOne<V>(m: map<nat, V>, r: nat, v: V)
    requires r !in m
    ensures |m[r := v]| == |m| + 1
  {
    assert m[r := v].Keys == m.Keys + {r};
    KeysCount(m);
    KeysCount(m[r := v]);
  }

  lemma {:induction false} KeysCount<V>(m: map<nat, V>)
    ensures |m.Keys| == |m|
  {
  }

  lemma {:induction false} ReleaseSame(q: Q, r: nat)
    requires Sized(q) && Slots(q) && r in q.reqs.linked
    ensures var reqs' := DoRelease(q, r).reqs;
            SameWaiting(q.reqs, reqs') && SameFinished(q.reqs, reqs') && SameOutcome(q.reqs, reqs')
  {
    var reqs' := DoRelease(q, r).reqs;
    forall x ensures Outcome(q.reqs, x) == Outcome(reqs', x) {
      assert AtOnePoint(q.reqs, x);
    }
  }

  // The handler.

  /** Consecutive positions of a ring hold different slots. */
  lemma {:induction false} SlotsDiffer(i: nat, j: nat, n: nat)
    requires 0 < n && i < j < i + n
    ensures i % n != j % n
  {
    var x, y := i / n, j / n;
    assert i == n * x + i % n && j == n * y + j % n;
    if y <= x {
      MulMono(n, y, x);
    } else {
      MulMono(n, x + 1, y);
      assert n * (x + 1) == n * x + n;
    }
  }

  /** The 16-bit index leads to the same slot as the full count. */
  lemma {:induction false} SlotOf(i: nat, n: nat)
    requires 0 < n && Divides(n)
    ensures i % WRAP % n == i % n
  {
    var m: nat :| n * m == WRAP;
    var k, x := i / WRAP, i % WRAP;
    assert i == WRAP * k + x;
    assert WRAP * k == n * (m * k);
    AddMultiple(x, m * k, n);
  }

  /** The handler finds the next completion of the log, and the request it
      belongs to. */
  lemma {:induction false} PostReads(q: Q)
    requires Inv(q) && Enabled(q, Post)
    ensures q.h.seen < |q.h.log|
    ensures var e := q.h.log[q.h.seen];
            && e.id in q.reqs.live && q.reqs.stage[e.id] == Completed(e.len)
            && ReqOf(q.t, SeenElem(q).id) == e.id && SeenElem(q).len == e.len
  {
    assert UsedOk(q, q.h.seen);
    SlotOf(q.h.seen, q.n);
    assert Slot(q, q.rings.lastSeen) == q.h.seen % q.n;
    assert TripOk(q, q.h.log[q.h.seen].id);
  }

  lemma {:induction false} PostKeeps(q: Q)
    requires Inv(q) && Enabled(q, Post)
    ensures Inv(DoPost(q))
  {
    var q' := DoPost(q);
    PostReads(q);
    var e := q.h.log[q.h.seen];
    StageSame(q.reqs, e.id, Posted(e.len));
    StageFrame(q, q', e.id, Posted(e.len));
    AvailableFrame(q, q');
    PostLog(q, q', e);
  }

  /** A change of stage other than from or to Submitted. */
  lemma {:induction false} StageSame(reqs: Reqs, r: nat, s: Stage)
    requires r in reqs.stage && reqs.stage[r] != Submitted && s != Submitted
    ensures SameWaiting(reqs, SetStage(reqs, r, s))
  {
  }

  lemma {:induction false} PostLog(q: Q, q': Q, e: Elem)
    requires Sized(q) && Used(q) && Completions(q) && !q.h.busy && q.h.seen < |q.h.log| && e == q.h.log[q.h.seen]
    requires e.id in q.reqs.live && q'.reqs == SetStage(q.reqs, e.id, Posted(e.len))
    requires q'.n == q.n && q'.rings == q.rings && q'.h == q.h.(busy := true) && Sized(q')
    ensures Used(q') && Completions(q')
  {
    forall j | q.h.seen < j < |q.h.log| ensures UsedOk(q', j) {
      assert UsedOk(q, j) && LogOk(q, j);
    }
    forall j | 0 <= j < |q.h.log| ensures LogOk(q', j) {
      assert LogOk(q, j) && LogOk(q, q.h.seen);
    }
    forall r | Outcome(q'.reqs, r).Some? || (r in q'.reqs.stage && q'.reqs.stage[r].Completed?) ensures Logged(q', r) {
      assert r != e.id ==> Logged(q, r);
    }
  }

  lemma {:induction false} AdvanceKeeps(q: Q)
    requires Inv(q) && Enabled(q, Advance)
    ensures Inv(DoAdvance(q))
  {
    var q' := DoAdvance(q);
    SameAll(q.reqs, q'.reqs);
    SlotsFrame(q, q');
    DescriptorsFrame(q, q');
    AvailableFrame(q, q');
    CompletionsFrame(q, q');
    AdvanceUsed(q);
  }

  lemma {:induction false} AdvanceUsed(q: Q)
    requires Sized(q) && Sized(DoAdvance(q)) && Used(q) && q.h.busy
    ensures Used(DoAdvance(q))
  {
    var q' := DoAdvance(q);
    IncMod(q.h.seen);
    forall j | Unposted(q'.h) <= j < |q.h.log| ensures UsedOk(q', j) {
      assert UsedOk(q, j);
    }
  }

  // Giving descriptors back.

  lemma {:induction false} WalkFree(q: Q, r: nat, i: nat)
    requires Sized(q) && Sized(DoWalk(q, r)) && r in q.reqs.live && TripOk(q, r)
    requires i < |q.h.free| && FreeOk(q, i)
    ensures FreeOk(DoWalk(q, r), i)
  {
  }

  lemma {:induction false} WalkTrip(q: Q, r: nat, x: nat)
    requires Sized(q) && Sized(DoWalk(q, r)) && r in q.reqs.live && TripOk(q, r) && !q.reqs.stage[r].Walked?
    requires x in q.reqs.live && TripOk(q, x)
    ensures TripOk(DoWalk(q, r), x)
  {
  }

  lemma {:induction false} WalkDescriptors(q: Q, r: nat)
    requires Sized(q) && Sized(DoWalk(q, r)) && Descriptors(q) && r in q.reqs.live && !q.reqs.stage[r].Walked?
    ensures Descriptors(DoWalk(q, r))
  {
    var q' := DoWalk(q, r);
    assert TripOk(q, r);
    forall i | 0 <= i < |q.h.free| ensures FreeOk(q', i) {
      assert FreeOk(q, i);
      WalkFree(q, r, i);
    }
    forall x | x in q.reqs.live ensures TripOk(q', x) {
      assert TripOk(q, x);
      WalkTrip(q, r, x);
    }
    forall d | 0 <= d < q.n ensures PlaceOk(q', d) {
      assert PlaceOk(q, d);
    }
  }

  lemma {:induction false} WalkSame(reqs: Reqs, r: nat, len: nat)
    requires r in reqs.stage && reqs.stage[r] == Posted(len)
    ensures var reqs' := SetStage(reqs, r, Walked(len));
            SameWaiting(reqs, reqs') && SameFinished(reqs, reqs') && SameOutcome(reqs, reqs')
  {
  }

  lemma {:induction false} WalkKeeps(q: Q, r: nat)
    requires Inv(q) && Enabled(q, Walk(r))
    ensures Inv(DoWalk(q, r))
  {
    var q' := DoWalk(q, r);
    WalkDescriptors(q, r);
    WalkSame(q.reqs, r, LenOf(q, r));
    SlotsFrame(q, q');
    AvailableFrame(q, q');
    UsedFrame(q, q');
    CompletionsFrame(q, q');
  }

  lemma {:induction false} LinkSlots(q: Q, r: nat)
    requires Slots(q) && r in q.reqs.live
    ensures Slots(DoLink(q, r))
  {
    assert AtOnePoint(q.reqs, r);
    RemoveOne(q.reqs.live, r);
    AddOne(q.reqs.linked, r, LenOf(q, r));
    forall x ensures AtOnePoint(DoLink(q, r).reqs, x) {
      assert AtOnePoint(q.reqs, x);
    }
  }

  lemma {:induction false} LinkSame(q: Q, r: nat)
    requires Sized(q) && Slots(q) && Enabled(q, Link(r))
    ensures var reqs' := DoLink(q, r).reqs;
            SameWaiting(q.reqs, reqs') && SameFinished(q.reqs, reqs') && SameOutcome(q.reqs, reqs')
  {
    var reqs' := DoLink(q, r).reqs;
    assert AtOnePoint(q.reqs, r);
    forall x ensures Outcome(q.reqs, x) == Outcome(reqs', x) {}
  }

  lemma {:induction false} LinkFree(q: Q, r: nat, i: nat)
    requires Sized(q) && Sized(DoLink(q, r)) && r in q.reqs.live && TripOk(q, r)
    requires i < |q.h.free| && FreeOk(q, i)
    ensures FreeOk(DoLink(q, r), i + 3)
  {
    var q' := DoLink(q, r);
    assert q'.h.free[i + 3] == q.h.free[i] && (i + 1 < |q.h.free| ==> q'.h.free[i + 4] == q.h.free[i + 1]);
  }

  lemma {:induction false} LinkFront(q: Q, r: nat)
    requires Sized(q) && Sized(DoLink(q, r)) && r in q.reqs.live && TripOk(q, r)
    requires q.h.free != [] ==> q.t.head == q.h.free[0]
    ensures var q' := DoLink(q, r); FreeOk(q', 0) && FreeOk(q', 1) && FreeOk(q', 2)
  {
    var q' := DoLink(q, r);
    assert q.h.free != [] ==> q'.h.free[3] == q.h.free[0];
  }

  lemma {:induction false} LinkTrip(q: Q, r: nat, x: nat)
    requires Sized(q) && Sized(DoLink(q, r)) && r in q.reqs.live && TripOk(q, r)
    requires x in q.reqs.live && x != r && TripOk(q, x)
    ensures TripOk(DoLink(q, r), x)
  {
  }

  lemma {:induction false} LinkPlace(q: Q, r: nat, d: nat)
    requires Sized(q) && Sized(DoLink(q, r)) && r in q.reqs.live && TripOk(q, r)
    requires d < q.n && PlaceOk(q, d)
    ensures PlaceOk(DoLink(q, r), d)
  {
    var q', p := DoLink(q, r), q.reqs.live[r];
    if d == p.a || d == p.b || d == p.c {
      assert q'.h.free[0] == p.a && q'.h.free[1] == p.b && q'.h.free[2] == p.c;
    } else {
      assert q'.h.place[d] == q.h.place[d];
      if q.h.place[d].Free? {
        assert q'.h.free[|q'.h.free| - q.h.place[d].k] == q.h.free[|q.h.free| - q.h.place[d].k];
      }
    }
  }

  lemma {:induction false} LinkChain(q: Q, r: nat)
    requires Sized(q) && Sized(DoLink(q, r)) && FreeChain(q) && r in q.reqs.live && TripOk(q, r)
    ensures FreeChain(DoLink(q, r))
  {
    var q' := DoLink(q, r);
    LinkFront(q, r);
    forall i | 0 <= i < |q'.h.free| ensures FreeOk(q', i) {
      if i >= 3 {
        assert FreeOk(q, i - 3);
        LinkFree(q, r, i - 3);
      }
    }
  }

  lemma {:induction false} LinkDescriptors(q: Q, r: nat)
    requires Sized(q) && Sized(DoLink(q, r)) && Descriptors(q) && r in q.reqs.live
    ensures Descriptors(DoLink(q, r))
  {
    var q' := DoLink(q, r);
    assert TripOk(q, r);
    LinkChain(q, r);
    forall x | x in q'.reqs.live ensures TripOk(q', x) {
      assert TripOk(q, x);
      LinkTrip(q, r, x);
    }
    assert Trips(q');
    forall d | 0 <= d < q.n ensures PlaceOk(q', d) {
      assert PlaceOk(q, d);
      LinkPlace(q, r, d);
    }
    RemoveOne(q.reqs.live, r);
  }

  lemma {:induction false} LinkKeeps(q: Q, r: nat)
    requires Inv(q) && Enabled(q, Link(r))
    ensures Inv(DoLink(q, r))
  {
    var q' := DoLink(q, r);
    assert q'.reqs.stage.Keys == q'.reqs.live.Keys;
    LinkDescriptors(q, r);
    LinkSame(q, r);
    LinkSlots(q, r);
    AvailableFrame(q, q');
    UsedFrame(q, q');
    CompletionsFrame(q, q');
  }

  // The device.

  /** The device finds the next submitted request in the available ring. */
  lemma {:induction false} FetchReads(q: Q)
    requires Inv(q) && Enabled(q, Fetch)
    ensures q.h.taken < |q.h.subs|
    ensures var r := q.h.subs[q.h.taken];
            r in q.reqs.live && q.reqs.stage[r] == Submitted && FetchedReq(q) == r
  {
    var j := q.h.taken;
    assert SubOk(q, j);
    SlotOf(j, q.n);
    assert Slot(q, q.rings.devIdx) == j % q.n;
    assert TripOk(q, q.h.subs[j]);
  }

  lemma {:induction false} FetchSame(reqs: Reqs, r: nat)
    requires r in reqs.stage && reqs.stage[r] == Submitted
    ensures var reqs' := SetStage(reqs, r, Taken); SameFinished(reqs, reqs') && SameOutcome(reqs, reqs')
  {
  }

  lemma {:induction false} FetchAvailable(q: Q, r: nat)
    requires Sized(q) && Sized(DoFetch(q)) && Available(q) && q.h.taken < |q.h.subs|
    requires r == q.h.subs[q.h.taken] && FetchedReq(q) == r
    ensures Available(DoFetch(q))
  {
    var q' := DoFetch(q);
    IncMod(q.h.taken);
    forall j | q'.h.taken <= j < |q.h.subs| ensures SubOk(q', j) {
      assert SubOk(q, j);
      assert q.h.subs[q.h.taken] != q.h.subs[j];
    }
    forall x | x in q'.reqs.stage && q'.reqs.stage[x] == Submitted ensures Awaits(q', x) {
      assert Awaits(q, x);
    }
  }

  lemma {:induction false} FetchKeeps(q: Q)
    requires Inv(q) && Enabled(q, Fetch)
    ensures Inv(DoFetch(q))
  {
    FetchReads(q);
    FetchTables(q);
    FetchRings(q);
    FetchAvailable(q, q.h.subs[q.h.taken]);
  }

  lemma {:induction false} FetchTables(q: Q)
    requires Inv(q) && Enabled(q, Fetch)
    ensures Sized(DoFetch(q)) && Descriptors(DoFetch(q)) && Slots(DoFetch(q))
  {
    FetchReads(q);
    StageFrame(q, DoFetch(q), q.h.subs[q.h.taken], Taken);
  }

  lemma {:induction false} FetchRings(q: Q)
    requires Inv(q) && Enabled(q, Fetch) && Sized(DoFetch(q))
    ensures Used(DoFetch(q)) && Completions(DoFetch(q))
  {
    FetchReads(q);
    FetchSame(q.reqs, q.h.subs[q.h.taken]);
    UsedFrame(q, DoFetch(q));
    CompletionsFrame(q, DoFetch(q));
  }

  /** Different requests that all hold descriptors are no more than there are slots. */
  lemma {:induction false} FewLive(ids: seq<nat>, live: set<nat>)
    requires forall i | 0 <= i < |ids| :: ids[i] in live
    requires forall i, j | 0 <= i < j < |ids| :: ids[i] != ids[j]
    ensures |ids| <= |live|
  {
    if ids != [] {
      var last := ids[|ids| - 1];
      FewLive(ids[..|ids| - 1], live - {last});
    }
  }

  ghost function IdsFrom(log: seq<Elem>, lo: nat): (ids: seq<nat>)
    requires lo <= |log|
    ensures |ids| == |log| - lo && forall i | 0 <= i < |ids| :: ids[i] == log[lo + i].id
    decreases |log| - lo
  {
    if lo == |log| then [] else [log[lo].id] + IdsFrom(log, lo + 1)
  }

  lemma {:induction false} UsedWindow(q: Q)
    requires Sized(q) && Slots(q) && Used(q) && Completions(q)
    ensures |q.h.log| - Unposted(q.h) <= q.n / 3
  {
    var lo := Unposted(q.h);
    var ids := IdsFrom(q.h.log, lo);
    forall i | 0 <= i < |ids| ensures ids[i] in q.reqs.live.Keys {
      assert UsedOk(q, lo + i);
    }
    forall i, j | 0 <= i < j < |ids| ensures ids[i] != ids[j] {
      assert LogOk(q, lo + j);
    }
    FewLive(ids, q.reqs.live.Keys);
    KeysCount(q.reqs.live);
  }

  /** A completed request was never completed before. */
  lemma {:induction false} NotLogged(q: Q, r: nat)
    requires Sized(q) && Used(q) && Completions(q) && Get(q.reqs.stage, r) == Some(Taken)
    ensures forall j | 0 <= j < |q.h.log| :: q.h.log[j].id != r
  {
    forall j | 0 <= j < |q.h.log| ensures q.h.log[j].id != r {
      assert LogOk(q, j);
      if j >= Unposted(q.h) {
        assert UsedOk(q, j);
      }
    }
  }

  lemma {:induction false} CompleteUsed(q: Q, r: nat, len: nat)
    requires Sized(q) && Sized(DoComplete(q, r, len)) && Slots(q) && Used(q) && Completions(q)
    requires Get(q.reqs.stage, r) == Some(Taken) && r in q.reqs.live
    ensures Used(DoComplete(q, r, len))
  {
    var q', u := DoComplete(q, r, len), |q.h.log|;
    IncMod(u);
    SlotOf(u, q.n);
    assert Slot(q, q.rings.usedIdx) == u % q.n;
    UsedWindow(q);
    forall j | Unposted(q'.h) <= j < |q'.h.log| ensures UsedOk(q', j) {
      if j < u {
        CompleteOther(q, r, len, j);
      }
    }
  }

  lemma {:induction false} CompleteOther(q: Q, r: nat, len: nat, j: nat)
    requires Sized(q) && Sized(DoComplete(q, r, len)) && Used(q) && Unposted(q.h) <= j < |q.h.log| < j + q.n
    requires Get(q.reqs.stage, r) == Some(Taken) && Slot(q, q.rings.usedIdx) == |q.h.log| % q.n
    ensures UsedOk(DoComplete(q, r, len), j)
  {
    assert UsedOk(q, j);
    SlotsDiffer(j, |q.h.log|, q.n);
  }

  lemma {:induction false} CompleteLog(q: Q, r: nat, len: nat)
    requires Sized(q) && Sized(DoComplete(q, r, len)) && Used(q) && Completions(q)
    requires Get(q.reqs.stage, r) == Some(Taken)
    ensures Completions(DoComplete(q, r, len))
  {
    var q' := DoComplete(q, r, len);
    NotLogged(q, r);
    forall j | 0 <= j < |q'.h.log| ensures LogOk(q', j) {
      if j < |q.h.log| {
        assert LogOk(q, j);
      }
    }
    assert q'.h.log[|q.h.log|].id == r;
    forall x | Outcome(q'.reqs, x).Some? || (x in q'.reqs.stage && q'.reqs.stage[x].Completed?) ensures Logged(q', x) {
      if x != r {
        assert Logged(q, x);
        var j :| 0 <= j < |q.h.log| && q.h.log[j].id == x;
        assert q'.h.log[j].id == x;
      }
    }
  }

  lemma {:induction false} CompleteKeeps(q: Q, r: nat, len: nat)
    requires Inv(q) && Enabled(q, Complete(r, len))
    ensures Inv(DoComplete(q, r, len))
  {
    CompleteTables(q, r, len);
    CompleteUsed(q, r, len);
    CompleteLog(q, r, len);
  }

  lemma {:induction false} CompleteTables(q: Q, r: nat, len: nat)
    requires Inv(q) && Enabled(q, Complete(r, len))
    ensures Sized(DoComplete(q, r, len)) && Descriptors(DoComplete(q, r, len)) && Slots(DoComplete(q, r, len))
    ensures Available(DoComplete(q, r, len)) && r in q.reqs.live
  {
    StageFrame(q, DoComplete(q, r, len), r, Completed(len));
    CompleteAvailable(q, r, len);
  }

  lemma {:induction false} CompleteAvailable(q: Q, r: nat, len: nat)
    requires Sized(q) && Available(q) && Enabled(q, Complete(r, len)) && Sized(DoComplete(q, r, len))
    ensures Available(DoComplete(q, r, len))
  {
    StageSame(q.reqs, r, Completed(len));
    AvailableFrame(q, DoComplete(q, r, len));
  }

  // Submitting.

  /** A request with a slot finds three descriptors in the free chain, so
      submit_req never takes one in use nor walks past the end of the chain. */
  lemma {:induction false} SubmitPicks(q: Q, r: nat)
    requires Sized(q) && Slots(q) && Descriptors(q) && r in q.reqs.reserved
    ensures |q.h.free| >= 3
    ensures Picked(q.t) == Trip(q.h.free[0], q.h.free[1], q.h.free[2])
    ensures |q.h.free| > 3 ==> NextOf(q.t, q.h.free[2]) == q.h.free[3]
    ensures forall i | 0 <= i < 3 :: q.h.free[i] < q.n && q.h.place[q.h.free[i]] == Free(|q.h.free| - i)
  {
    assert |q.reqs.reserved| >= 1 by {
      assert q.reqs.reserved == (q.reqs.reserved - {r}) + {r};
    }
    assert 3 * |q.reqs.live| + 3 <= q.n;
    assert FreeOk(q, 0) && FreeOk(q, 1) && FreeOk(q, 2);
  }

  /** What is known when the three descriptors are picked. */
  ghost predicate Picks(q: Q, q': Q, r: nat) {
    && Sized(q) && Sized(q') && q' == DoSubmit(q, r) && |q.h.free| >= 3 && r !in q.reqs.live
    && var p := Trip(q.h.free[0], q.h.free[1], q.h.free[2]);
    && Picked(q.t) == p && p.a < q.n && p.b < q.n && p.c < q.n
    && q.h.place[p.a] == Free(|q.h.free|) && q.h.place[p.b] == Free(|q.h.free| - 1) &&
         q.h.place[p.c] == Free(|q.h.free| - 2)
  }

  lemma {:induction false} SubmitFree(q: Q, q': Q, r: nat, i: nat)
    requires Picks(q, q', r) && i + 3 < |q.h.free| && FreeOk(q, i + 3)
    ensures FreeOk(q', i)
  {
    assert q'.h.free[i] == q.h.free[i + 3] && (i + 4 < |q.h.free| ==> q'.h.free[i + 1] == q.h.free[i + 4]);
  }

  lemma {:induction false} SubmitTrip(q: Q, q': Q, r: nat, x: nat)
    requires Picks(q, q', r) && x in q.reqs.live && TripOk(q, x)
    ensures TripOk(q', x)
  {
  }

  lemma {:induction false} SubmitNew(q: Q, q': Q, r: nat)
    requires Picks(q, q', r)
    ensures TripOk(q', r)
  {
  }

  lemma {:induction false} SubmitPlace(q: Q, q': Q, r: nat, d: nat)
    requires Picks(q, q', r) && d < q.n && PlaceOk(q, d)
    ensures PlaceOk(q', d)
  {
    var p := Picked(q.t);
    if d != p.a && d != p.b && d != p.c {
      assert q'.h.place[d] == q.h.place[d];
      if q.h.place[d].Free? {
        var k := q.h.place[d].k;
        assert k <= |q.h.free| - 3;
        assert q'.h.free[|q'.h.free| - k] == q.h.free[|q.h.free| - k];
      }
    }
  }

  lemma {:induction false} SubmitChain(q: Q, q': Q, r: nat)
    requires Picks(q, q', r) && FreeChain(q)
    ensures FreeChain(q')
  {
    assert FreeOk(q, 2);
    forall i | 0 <= i < |q'.h.free| ensures FreeOk(q', i) {
      assert FreeOk(q, i + 3);
      SubmitFree(q, q', r, i);
    }
  }

  lemma {:induction false} SubmitDescriptors(q: Q, q': Q, r: nat)
    requires Picks(q, q', r) && Descriptors(q)
    ensures Descriptors(q')
  {
    SubmitChain(q, q', r);
    forall x | x in q'.reqs.live ensures TripOk(q', x) {
      if x == r {
        SubmitNew(q, q', r);
      } else {
        assert TripOk(q, x);
        SubmitTrip(q, q', r, x);
      }
    }
    assert Trips(q');
    forall d | 0 <= d < q.n ensures PlaceOk(q', d) {
      assert PlaceOk(q, d);
      SubmitPlace(q, q', r, d);
    }
    AddOne(q.reqs.live, r, Picked(q.t));
  }

  lemma {:induction false} SubmitSlots(q: Q, r: nat)
    requires Slots(q) && r in q.reqs.reserved
    ensures Slots(DoSubmit(q, r)) && r !in q.reqs.live
  {
    assert AtOnePoint(q.reqs, r);
    AddOne(q.reqs.live, r, Picked(q.t));
    forall x ensures AtOnePoint(DoSubmit(q, r).reqs, x) {
      assert AtOnePoint(q.reqs, x);
    }
  }

  lemma {:induction false} SubmitSame(q: Q, r: nat)
    requires Sized(q) && Slots(q) && r in q.reqs.reserved
    ensures var reqs' := DoSubmit(q, r).reqs; SameFinished(q.reqs, reqs') && SameOutcome(q.reqs, reqs')
  {
    var reqs' := DoSubmit(q, r).reqs;
    assert AtOnePoint(q.reqs, r);
    forall x ensures Outcome(q.reqs, x) == Outcome(reqs', x) {}
  }

  lemma {:induction false} AvailWindow(q: Q)
    requires Sized(q) && Slots(q) && Available(q)
    ensures |q.h.subs| - q.h.taken <= q.n / 3
  {
    var ids := q.h.subs[q.h.taken..];
    forall i | 0 <= i < |ids| ensures ids[i] in q.reqs.live.Keys {
      assert SubOk(q, q.h.taken + i);
    }
    forall i, j | 0 <= i < j < |ids| ensures ids[i] != ids[j] {
      assert SubOk(q, q.h.taken + j);
      assert q.h.subs[q.h.taken + i] != q.h.subs[q.h.taken + j];
    }
    FewLive(ids, q.reqs.live.Keys);
    KeysCount(q.reqs.live);
  }

  lemma {:induction false} SubmitOther(q: Q, q': Q, r: nat, j: nat)
    requires Picks(q, q', r) && Available(q) && q.h.taken <= j < |q.h.subs| < j + q.n
    requires Slot(q, q.rings.availIdx) == |q.h.subs| % q.n
    ensures SubOk(q', j)
  {
    assert SubOk(q, j);
    SlotsDiffer(j, |q.h.subs|, q.n);
    assert forall i | q.h.taken <= i <= j :: q'.h.subs[i] == q.h.subs[i];
  }

  lemma {:induction false} SubmitAvailable(q: Q, q': Q, r: nat)
    requires Picks(q, q', r) && Available(q) && Slots(q)
    ensures Available(q')
  {
    var u := |q.h.subs|;
    IncMod(u);
    SlotOf(u, q.n);
    assert Slot(q, q.rings.availIdx) == u % q.n;
    AvailWindow(q);
    forall j | q.h.taken <= j < u + 1 ensures SubOk(q', j) {
      if j < u {
        SubmitOther(q, q', r, j);
      } else {
        forall i | q.h.taken <= i < u ensures q'.h.subs[i] != r {
          assert SubOk(q, i);
        }
      }
    }
    forall x | x in q'.reqs.stage && q'.reqs.stage[x] == Submitted ensures Awaits(q', x) {
      if x == r {
        assert q'.h.subs[u] == r;
      } else {
        assert Awaits(q, x);
        var j :| q.h.taken <= j < |q.h.subs| && q.h.subs[j] == x;
        assert q'.h.subs[j] == x;
      }
    }
  }

  lemma {:induction false} SubmitKeeps(q: Q, r: nat)
    requires Inv(q) && Enabled(q, Submit(r))
    ensures Inv(DoSubmit(q, r))
  {
    var q' := DoSubmit(q, r);
    SubmitPicks(q, r);
    SubmitSlots(q, r);
    SubmitSame(q, r);
    assert q'.reqs.stage.Keys == q'.reqs.live.Keys;
    SubmitDescriptors(q, q', r);
    SubmitAvailable(q, q', r);
    UsedFrame(q, q');
    CompletionsFrame(q, q');
  }
}
