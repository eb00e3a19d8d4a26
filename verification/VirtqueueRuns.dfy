/** Whole runs of the virtqueue protocol, and the loops of the driver. */
module VirtqueueRuns {
  import opened Common
  import opened Virtqueue

  // ------------------------------------------------------------------------ init_free_list

  /** The state setup_queues leaves: all descriptors chained, all slots free.
      The contents of the rings and of the last link do not matter. */
  ghost predicate Init(q: Q) {
    && Sized(q) && q.sem == q.n / 3 && q.t.head == 0
    && (forall i | 0 <= i < q.n - 1 :: q.t.desc[i].next == i + 1)
    && q.rings.availIdx == 0 && q.rings.devIdx == 0 && q.rings.usedIdx == 0 && q.rings.lastSeen == 0
    && q.reqs == Reqs({}, map[], map[], map[], map[])
    && q.h.subs == [] && q.h.taken == 0 && q.h.log == [] && q.h.seen == 0 && !q.h.busy
    && |q.h.free| == q.n && (forall i | 0 <= i < q.n :: q.h.free[i] == i && q.h.place[i] == Free(q.n - i))
  }

  lemma {:induction false} InitInv(q: Q)
    requires Init(q)
    ensures Inv(q)
  {
    forall i | 0 <= i < |q.h.free| ensures FreeOk(q, i) {
      assert q.h.free[i] == i && q.h.place[i] == Free(q.n - i);
    }
    forall d | 0 <= d < q.n ensures PlaceOk(q, d) {
      assert q.h.free[d] == d && q.h.place[d] == Free(q.n - d);
    }
    assert q.h.free[0] == 0;
  }

  /** The loop of init_free_list over a fresh table of `n` descriptors. */
  method InitFreeList(desc: seq<Desc>) returns (linked: seq<Desc>, head: nat, slots: nat)
    requires desc != []
    ensures |linked| == |desc| && head == 0 && slots == |desc| / 3
    ensures forall i | 0 <= i < |desc| - 1 :: linked[i] == Desc(i + 1, desc[i].more)
    ensures linked[|desc| - 1] == desc[|desc| - 1]
  {
    linked := desc;
    var i := 0;
    while i < |desc| - 1
      invariant 0 <= i <= |desc| - 1 && |linked| == |desc|
      invariant forall k | 0 <= k < i :: linked[k] == Desc(k + 1, desc[k].more)
      invariant forall k | i <= k < |desc| :: linked[k] == desc[k]
    {
      linked := linked[i := Desc(i + 1, linked[i].more)];
      i := i + 1;
    }
    head, slots := 0, |desc| / 3;
  }

  // ---------------------------------------------------------------------------------- runs

  lemma {:induction false} StepKeeps(q: Q, act: Action)
    requires Inv(q) && Enabled(q, act)
    ensures Inv(Step(q, act))
  {
    match act
    case Acquire(r) => AcquireKeeps(q, r);
    case Submit(r) => SubmitKeeps(q, r);
    case Fetch => FetchKeeps(q);
    case Complete(r, len) => CompleteKeeps(q, r, len);
    case Post => PostKeeps(q);
    case Advance => AdvanceKeeps(q);
    case Walk(r) => WalkKeeps(q, r);
    case Link(r) => LinkKeeps(q, r);
    case Release(r) => ReleaseKeeps(q, r);
  }

  ghost predicate Runnable(q: Q, acts: seq<Action>)
    decreases |acts|
  {
    acts == [] || (Enabled(q, acts[0]) && Runnable(Step(q, acts[0]), acts[1..]))
  }

  function Run(q: Q, acts: seq<Action>): Q
    decreases |acts|
  {
    if acts == [] then q else Run(Step(q, acts[0]), acts[1..])
  }

  /** Whatever submitters, device, handler and releasers do, and in whatever
      order, the invariant holds. */
  lemma {:induction false} RunKeeps(q: Q, acts: seq<Action>)
    requires Inv(q) && Runnable(q, acts)
    ensures Inv(Run(q, acts))
    decreases |acts|
  {
    if acts != [] {
      StepKeeps(q, acts[0]);
      RunKeeps(Step(q, acts[0]), acts[1..]);
    }
  }

  // ------------------------------------------------------------------------ what it means

  predicate InTrip(p: Trip, d: nat) {
    d == p.a || d == p.b || d == p.c
  }

  /** Every descriptor is in the free chain or in the chain of exactly one
      request, never both. */
  lemma {:induction false} Partition(q: Q, d: nat)
    requires Inv(q) && d < q.n
    ensures d in q.h.free <==> !exists r :: r in q.reqs.live && InTrip(q.reqs.live[r], d)
    ensures forall r, x | r in q.reqs.live && x in q.reqs.live ::
              InTrip(q.reqs.live[r], d) && InTrip(q.reqs.live[x], d) ==> r == x
  {
    assert PlaceOk(q, d);
    forall r | r in q.reqs.live && InTrip(q.reqs.live[r], d) ensures q.h.place[d] == Of(r) {
      assert TripOk(q, r);
    }
    if d in q.h.free {
      var i :| 0 <= i < |q.h.free| && q.h.free[i] == d;
      assert FreeOk(q, i);
    } else {
      assert q.h.place[d].Of?;
    }
  }

  lemma {:induction false} CompletedIsPending(q: Q, r: nat)
    requires Inv(q) && r in q.reqs.stage
    ensures q.reqs.stage[r].Completed? ==> exists j :: Unposted(q.h) <= j < |q.h.log| && q.h.log[j].id == r
  {
    if q.reqs.stage[r].Completed? {
      assert Logged(q, r);
      var j :| 0 <= j < |q.h.log| && q.h.log[j].id == r;
      assert LogOk(q, j);
      assert Unposted(q.h) <= j;
    }
  }

  /** The handler stops exactly when it has posted every completion. */
  lemma {:induction false} HandlerDone(q: Q)
    requires Inv(q) && !q.h.busy
    ensures q.rings.lastSeen == q.rings.usedIdx <==> q.h.seen == |q.h.log|
    ensures q.rings.lastSeen == q.rings.usedIdx ==> forall r | r in q.reqs.stage :: !q.reqs.stage[r].Completed?
  {
    UsedWindow(q);
    if q.h.seen < |q.h.log| {
      SlotsDiffer(q.h.seen, |q.h.log|, WRAP);
    } else {
      forall r | r in q.reqs.stage ensures !q.reqs.stage[r].Completed? {
        CompletedIsPending(q, r);
      }
    }
  }

  lemma {:induction false} PendingHasNoOutcome(q: Q, j: nat)
    requires Inv(q) && j < |q.h.log|
    ensures Unposted(q.h) <= j ==> Outcome(q.reqs, q.h.log[j].id) == None
  {
    if Unposted(q.h) <= j {
      assert UsedOk(q, j);
    }
  }

  /** A request that returned got the length the device reported for it, once. */
  lemma {:induction false} ReturnedOnce(q: Q, r: nat)
    requires Inv(q) && r in q.reqs.done
    ensures exists j :: 0 <= j < |q.h.log| && q.h.log[j] == Elem(r, q.reqs.done[r])
    ensures forall i, j | 0 <= i < j < |q.h.log| :: q.h.log[i].id != q.h.log[j].id
  {
    assert AtOnePoint(q.reqs, r);
    assert Outcome(q.reqs, r) == Some(q.reqs.done[r]);
    assert Logged(q, r);
    var j :| 0 <= j < |q.h.log| && q.h.log[j].id == r;
    assert LogOk(q, j);
    PendingHasNoOutcome(q, j);
    forall i, k | 0 <= i < k < |q.h.log| ensures q.h.log[i].id != q.h.log[k].id {
      assert LogOk(q, k);
    }
  }

  // ---------------------------------------------------------------- posted exactly once

  /** The request whose completion semaphore this step posts, if any. */
  function PostedBy(q: Q, act: Action): Option<Elem> {
    if act == Post then Some(Elem(ReqOf(q.t, SeenElem(q).id), SeenElem(q).len)) else None
  }

  /** A post goes to a request that has none yet; no other step changes what a
      request was posted. */
  lemma {:induction false} OutcomeStep(q: Q, act: Action, r: nat)
    requires Inv(q) && Enabled(q, act)
    ensures var e := PostedBy(q, act);
            if e.Some? && e.value.id == r
            then Outcome(q.reqs, r) == None && Outcome(Step(q, act).reqs, r) == Some(e.value.len)
            else Outcome(Step(q, act).reqs, r) == Outcome(q.reqs, r)
  {
    if act == Post {
      PostOutcome(q, r);
    } else {
      QuietStep(q, act);
      SameOne(q.reqs, Step(q, act).reqs, r);
    }
  }

  lemma {:induction false} PostOutcome(q: Q, r: nat)
    requires Inv(q) && Enabled(q, Post)
    ensures var e := PostedBy(q, Post);
            if e.Some? && e.value.id == r
            then Outcome(q.reqs, r) == None && Outcome(DoPost(q).reqs, r) == Some(e.value.len)
            else Outcome(DoPost(q).reqs, r) == Outcome(q.reqs, r)
  {
    PostReads(q);
    StageOutcome(q.reqs, ReqOf(q.t, SeenElem(q).id), SeenElem(q).len, r);
  }

  lemma {:induction false} StageOutcome(reqs: Reqs, x: nat, len: nat, r: nat)
    requires x in reqs.stage
    ensures Outcome(SetStage(reqs, x, Posted(len)), r) == if r == x then Some(len) else Outcome(reqs, r)
  {
  }

  lemma {:induction false} SameOne(reqs: Reqs, reqs': Reqs, r: nat)
    requires SameOutcome(reqs, reqs')
    ensures Outcome(reqs', r) == Outcome(reqs, r)
  {
  }

  lemma {:induction false} QuietStep(q: Q, act: Action)
    requires Inv(q) && Enabled(q, act) && act != Post
    ensures SameOutcome(q.reqs, Step(q, act).reqs)
  {
    match act
    case Acquire(_) => SameAll(q.reqs, Step(q, act).reqs);
    case Submit(x) => SubmitSame(q, x);
    case Fetch =>
      FetchReads(q);
      FetchSame(q.reqs, q.h.subs[q.h.taken]);
    case Complete(x, len) => CompleteSame(q.reqs, x, len);
    case Advance => SameAll(q.reqs, Step(q, act).reqs);
    case Walk(x) => WalkSame(q.reqs, x, LenOf(q, x));
    case Link(x) => LinkSame(q, x);
    case Release(x) => ReleaseSame(q, x);
  }

  lemma {:induction false} CompleteSame(reqs: Reqs, r: nat, len: nat)
    requires r in reqs.stage && reqs.stage[r] == Taken
    ensures SameOutcome(reqs, SetStage(reqs, r, Completed(len)))
  {
  }

  /** How often request `r` is posted during a run. */
  function Posts(q: Q, acts: seq<Action>, r: nat): nat
    decreases |acts|
  {
    if acts == [] then 0
    else (if PostedBy(q, acts[0]).Some? && PostedBy(q, acts[0]).value.id == r then 1 else 0)
         + Posts(Step(q, acts[0]), acts[1..], r)
  }

  function Once(o: Option<nat>): nat {
    if o.Some? then 1 else 0
  }

  /** Over a whole run a request is posted once if it has an outcome at the
      end, and otherwise not at all. */
  lemma {:induction false} PostedOnce(q: Q, acts: seq<Action>, r: nat)
    requires Inv(q) && Runnable(q, acts)
    ensures Once(Outcome(q.reqs, r)) + Posts(q, acts, r) == Once(Outcome(Run(q, acts).reqs, r))
    decreases |acts|
  {
    if acts != [] {
      OutcomeStep(q, acts[0], r);
      StepKeeps(q, acts[0]);
      PostedOnce(Step(q, acts[0]), acts[1..], r);
    }
  }

  // --------------------------------------------------------- the loop of release_desc_chain

  /** Following the links while VIRTQ_DESC_F_NEXT is set, and clearing it, ends
      at the status descriptor of the chain. */
  method WalkChain(q: Q, r: nat) returns (desc: seq<Desc>, tail: nat)
    requires Inv(q) && Enabled(q, Walk(r))
    ensures desc == DoWalk(q, r).t.desc && tail == q.reqs.live[r].c
  {
    ghost var p := q.reqs.live[r];
    assert TripOk(q, r);
    var head := q.reqs.live[r].a;
    desc, tail := q.t.desc, head;
    ghost var left := [p.b, p.c];
    while desc[tail].more
      invariant |desc| == q.n && tail < q.n
      invariant || (tail == p.a && left == [p.b, p.c] && desc == q.t.desc)
                || (tail == p.b && left == [p.c] && desc == Put(q.t.desc, p.a, Desc(p.b, false)))
                || (tail == p.c && left == [] && desc == WalkTable(q.t, p).desc)
      decreases |left|
    {
      desc := desc[tail := Desc(desc[tail].next, false)];
      tail := desc[tail].next;
      left := left[1..];
    }
  }
}
