/** The way of a request through the virtqueue, and the order in which the
    device and the handler see requests, told from the run itself. */
module VirtqueueOrder {
  import opened Common
  import opened Virtqueue
  import opened VirtqueueRuns

  // ------------------------------------------------------------------ the way of a request

  /** Where a request is. */
  datatype Point = New | Reserved | At(stage: Stage) | Linked(len: nat) | Done(len: nat)

  function PointOf(reqs: Reqs, r: nat): Point {
    if r in reqs.reserved then Reserved
    else if r in reqs.stage then At(reqs.stage[r])
    else if r in reqs.linked then Linked(reqs.linked[r])
    else if r in reqs.done then Done(reqs.done[r])
    else New
  }

  /** The request a step is about. */
  function Subject(q: Q, act: Action): Option<nat> {
    match act
    case Acquire(r) => Some(r)
    case Submit(r) => Some(r)
    case Fetch => Some(FetchedReq(q))
    case Complete(r, _) => Some(r)
    case Post => Some(ReqOf(q.t, SeenElem(q).id))
    case Advance => None
    case Walk(r) => Some(r)
    case Link(r) => Some(r)
    case Release(r) => Some(r)
  }

  /** The step takes its request from one point to the next; the length the
      device reported goes with it. */
  predicate Moves(act: Action, from: Point, to: Point) {
    match act
    case Acquire(_) => from == New && to == Reserved
    case Submit(_) => from == Reserved && to == At(Submitted)
    case Fetch => from == At(Submitted) && to == At(Taken)
    case Complete(_, len) => from == At(Taken) && to == At(Completed(len))
    case Post => from.At? && from.stage.Completed? && to == At(Posted(from.stage.len))
    case Advance => false
    case Walk(_) => from.At? && from.stage.Posted? && to == At(Walked(from.stage.len))
    case Link(_) => from.At? && from.stage.Walked? && to == Linked(from.stage.len)
    case Release(_) => from.Linked? && to == Done(from.len)
  }

  /** The invariant, folded: `Unseal` opens it. */
  ghost predicate Safe(q: Q) {
    forall open {:trigger Sealed(q, open)} :: Sealed(q, open) ==> Inv(q)
  }

  ghost predicate Sealed(q: Q, open: bool) {
    true
  }

  lemma {:induction false} Unseal(q: Q)
    requires Safe(q)
    ensures Inv(q)
  {
    assert Sealed(q, true);
  }

  lemma {:induction false} SafeStep(q: Q, act: Action)
    requires Safe(q) && Enabled(q, act)
    ensures Safe(Step(q, act))
  {
    Unseal(q);
    StepKeeps(q, act);
  }

  lemma {:induction false} StagePoint(reqs: Reqs, x: nat, s: Stage, r: nat)
    requires x in reqs.stage && x !in reqs.reserved
    ensures PointOf(SetStage(reqs, x, s), r) == if r == x then At(s) else PointOf(reqs, r)
  {
  }

  lemma {:induction false} ReservePoint(reqs: Reqs, x: nat, r: nat)
    ensures PointOf(reqs.(reserved := reqs.reserved + {x}), r) == if r == x then Reserved else PointOf(reqs, r)
  {
  }

  lemma {:induction false} SubmitPoint(reqs: Reqs, x: nat, p: Trip, r: nat)
    requires x in reqs.reserved
    ensures var reqs' := Reqs(reqs.reserved - {x}, reqs.live[x := p], reqs.stage[x := Submitted], reqs.linked,
                              reqs.done);
            PointOf(reqs', r) == if r == x then At(Submitted) else PointOf(reqs, r)
  {
  }

  lemma {:induction false} LinkPoint(reqs: Reqs, x: nat, len: nat, r: nat)
    requires x !in reqs.reserved
    ensures var reqs' := Reqs(reqs.reserved, reqs.live - {x}, reqs.stage - {x}, reqs.linked[x := len], reqs.done);
            PointOf(reqs', r) == if r == x then Linked(len) else PointOf(reqs, r)
  {
  }

  lemma {:induction false} ReleasePoint(reqs: Reqs, x: nat, r: nat)
    requires x in reqs.linked && x !in reqs.reserved && x !in reqs.stage && x !in reqs.done
    ensures var reqs' := Reqs(reqs.reserved, reqs.live, reqs.stage, reqs.linked - {x}, reqs.done[x := reqs.linked[x]]);
            PointOf(reqs', r) == if r == x then Done(reqs.linked[x]) else PointOf(reqs, r)
  {
  }

  /** A request holds descriptors exactly at the points with a stage. */
  lemma {:induction false} OnePoint(q: Q, r: nat)
    requires Safe(q)
    ensures AtOnePoint(q.reqs, r) && q.reqs.stage.Keys == q.reqs.live.Keys
  {
    Unseal(q);
  }

  lemma {:induction false} FetchPoint(q: Q, r: nat)
    requires Safe(q) && Enabled(q, Fetch)
    ensures Get(q.reqs.stage, FetchedReq(q)) == Some(Submitted) && FetchedReq(q) !in q.reqs.reserved
    ensures PointOf(DoFetch(q).reqs, r) == if r == FetchedReq(q) then At(Taken) else PointOf(q.reqs, r)
  {
    Unseal(q);
    FetchReads(q);
    OnePoint(q, FetchedReq(q));
    StagePoint(q.reqs, FetchedReq(q), Taken, r);
  }

  lemma {:induction false} PostPoint(q: Q, r: nat)
    requires Safe(q) && Enabled(q, Post)
    ensures var x, len := ReqOf(q.t, SeenElem(q).id), SeenElem(q).len;
            && Get(q.reqs.stage, x) == Some(Completed(len)) && x !in q.reqs.reserved
            && PointOf(DoPost(q).reqs, r) == if r == x then At(Posted(len)) else PointOf(q.reqs, r)
  {
    Unseal(q);
    PostReads(q);
    var x := ReqOf(q.t, SeenElem(q).id);
    OnePoint(q, x);
    StagePoint(q.reqs, x, Posted(SeenElem(q).len), r);
  }

  /** Every step moves its own request one point ahead, and no other. */
  lemma {:induction false} PointStep(q: Q, act: Action, r: nat)
    requires Safe(q) && Enabled(q, act)
    ensures var from, to := PointOf(q.reqs, r), PointOf(Step(q, act).reqs, r);
            if Subject(q, act) == Some(r) then Moves(act, from, to) else to == from
  {
    match act
    case Acquire(x) =>
      OnePoint(q, x);
      ReservePoint(q.reqs, x, r);
    case Submit(x) => SubmitPoint(q.reqs, x, Picked(q.t), r);
    case Fetch => FetchPoint(q, r);
    case Complete(x, len) =>
      OnePoint(q, x);
      StagePoint(q.reqs, x, Completed(len), r);
    case Post => PostPoint(q, r);
    case Advance =>
    case Walk(x) =>
      OnePoint(q, x);
      StagePoint(q.reqs, x, Walked(LenOf(q, x)), r);
    case Link(x) =>
      OnePoint(q, x);
      LinkPoint(q.reqs, x, LenOf(q, x), r);
    case Release(x) =>
      OnePoint(q, x);
      ReleasePoint(q.reqs, x, r);
  }

  /** So a request that was made goes through every point, in order. */
  function Rank(p: Point): nat {
    match p
    case New => 0
    case Reserved => 1
    case At(Submitted) => 2
    case At(Taken) => 3
    case At(Completed(_)) => 4
    case At(Posted(_)) => 5
    case At(Walked(_)) => 6
    case Linked(_) => 7
    case Done(_) => 8
  }

  /** The steps of a run that are about request `r`. */
  function StepsOf(q: Q, acts: seq<Action>, r: nat): nat
    decreases |acts|
  {
    if acts == [] then 0
    else (if Subject(q, acts[0]) == Some(r) then 1 else 0) + StepsOf(Step(q, acts[0]), acts[1..], r)
  }

  /** Over every run a request is as far as the number of steps about it. */
  lemma {:induction false} RankCounts(q: Q, acts: seq<Action>, r: nat)
    requires Safe(q) && Runnable(q, acts)
    ensures Rank(PointOf(Run(q, acts).reqs, r)) == Rank(PointOf(q.reqs, r)) + StepsOf(q, acts, r)
    decreases |acts|
  {
    if acts != [] {
      PointStep(q, acts[0], r);
      SafeStep(q, acts[0]);
      RankCounts(Step(q, acts[0]), acts[1..], r);
    }
  }

  // -------------------------------------------------------------------- order of service

  /** The requests submitted in a run, in order. */
  function SubmittedIn(acts: seq<Action>): seq<nat> {
    if acts == [] then [] else (if acts[0].Submit? then [acts[0].r] else []) + SubmittedIn(acts[1..])
  }

  /** The requests the device finds in the available ring, in order. */
  function FetchedIn(q: Q, acts: seq<Action>): seq<nat>
    decreases |acts|
  {
    if acts == [] then []
    else (if acts[0].Fetch? then [FetchedReq(q)] else []) + FetchedIn(Step(q, acts[0]), acts[1..])
  }

  /** What the device reports in a run, in order. */
  function CompletedIn(acts: seq<Action>): seq<Elem> {
    if acts == [] then []
    else (if acts[0].Complete? then [Elem(acts[0].r, acts[0].len)] else []) + CompletedIn(acts[1..])
  }

  /** What the handler posts, in order. */
  function PostedIn(q: Q, acts: seq<Action>): seq<Elem>
    decreases |acts|
  {
    if acts == [] then []
    else
      var e := PostedBy(q, acts[0]);
      (if e.Some? then [e.value] else []) + PostedIn(Step(q, acts[0]), acts[1..])
  }

  lemma {:induction false} FetchTaken(q: Q, act: Action)
    requires Safe(q) && Enabled(q, act)
    ensures q.h.taken <= |q.h.subs| && (act.Fetch? ==> q.h.taken < |q.h.subs| && q.h.subs[q.h.taken] == FetchedReq(q))
  {
    Unseal(q);
    if act.Fetch? {
      FetchReads(q);
    }
  }

  lemma {:induction false} PostLogged(q: Q, act: Action)
    requires Safe(q) && Enabled(q, act)
    ensures Unposted(q.h) <= |q.h.log|
    ensures act.Post? ==>
              && !q.h.busy && q.h.seen < |q.h.log|
              && q.h.log[q.h.seen] == Elem(ReqOf(q.t, SeenElem(q).id), SeenElem(q).len)
  {
    Unseal(q);
    if act.Post? {
      PostReads(q);
    }
  }

  lemma {:induction false} FetchStep(q: Q, act: Action)
    requires Safe(q) && Enabled(q, act)
    ensures var q' := Step(q, act);
            && q'.h.subs == q.h.subs + SubmittedIn([act])
            && q.h.taken <= q'.h.taken <= |q'.h.subs| && q'.h.subs[q.h.taken..q'.h.taken] == FetchedIn(q, [act])
  {
    assert [act][1..] == [];
    FetchTaken(q, act);
  }

  lemma {:induction false} PostStep(q: Q, act: Action)
    requires Safe(q) && Enabled(q, act)
    ensures var q' := Step(q, act);
            && q'.h.log == q.h.log + CompletedIn([act])
            && Unposted(q.h) <= Unposted(q'.h) <= |q'.h.log|
            && q'.h.log[Unposted(q.h)..Unposted(q'.h)] == PostedIn(q, [act])
  {
    assert [act][1..] == [];
    PostLogged(q, act);
  }

  lemma {:induction false} Windows(q: Q)
    requires Safe(q)
    ensures q.h.taken <= |q.h.subs| && Unposted(q.h) <= |q.h.log|
  {
    Unseal(q);
  }

  /** Two stretches of a growing list, joined. */
  lemma {:induction false} Longer<T>(w: seq<T>, x: seq<T>, y: seq<T>, a: nat, b: nat, c: nat)
    requires a <= b <= |w + x| && b <= c <= |w + x + y|
    ensures w + x + y == w + (x + y)
    ensures (w + x + y)[a..c] == (w + x)[a..b] + (w + x + y)[b..c]
  {
  }

  lemma {:induction false} FetchRun(q: Q, acts: seq<Action>)
    requires Safe(q) && Runnable(q, acts)
    ensures var q' := Run(q, acts);
            && q'.h.subs == q.h.subs + SubmittedIn(acts)
            && q.h.taken <= q'.h.taken <= |q'.h.subs| && q'.h.subs[q.h.taken..q'.h.taken] == FetchedIn(q, acts)
    decreases |acts|
  {
    Windows(q);
    if acts != [] {
      var q1, q' := Step(q, acts[0]), Run(q, acts);
      FetchStep(q, acts[0]);
      SafeStep(q, acts[0]);
      FetchRun(q1, acts[1..]);
      FetchUnroll(q, q1, acts);
      Longer(q.h.subs, SubmittedIn([acts[0]]), SubmittedIn(acts[1..]), q.h.taken, q1.h.taken, q'.h.taken);
    }
  }

  /** From `q` to `q'` the log grew by `es`, and `ps` was posted of it. */
  ghost predicate Posting(q: Q, q': Q, es: seq<Elem>, ps: seq<Elem>) {
    && q'.h.log == q.h.log + es && Unposted(q.h) <= Unposted(q'.h) <= |q'.h.log|
    && q'.h.log[Unposted(q.h)..Unposted(q'.h)] == ps
  }

  lemma {:induction false} PostingJoins(q: Q, q1: Q, q': Q, es: seq<Elem>, ps: seq<Elem>, es': seq<Elem>,
                                        ps': seq<Elem>)
    requires Posting(q, q1, es, ps) && Posting(q1, q', es', ps')
    ensures Posting(q, q', es + es', ps + ps')
  {
    Longer(q.h.log, es, es', Unposted(q.h), Unposted(q1.h), Unposted(q'.h));
  }

  lemma {:induction false} PostRun(q: Q, acts: seq<Action>)
    requires Safe(q) && Runnable(q, acts)
    ensures Posting(q, Run(q, acts), CompletedIn(acts), PostedIn(q, acts))
    decreases |acts|
  {
    if acts == [] {
      Windows(q);
    } else {
      var q1 := Step(q, acts[0]);
      PostStep(q, acts[0]);
      SafeStep(q, acts[0]);
      PostRun(q1, acts[1..]);
      PostUnroll(q, q1, acts);
      PostingJoins(q, q1, Run(q, acts), CompletedIn([acts[0]]), PostedIn(q, [acts[0]]), CompletedIn(acts[1..]),
                   PostedIn(q1, acts[1..]));
    }
  }

  lemma {:induction false} PostUnroll(q: Q, q1: Q, acts: seq<Action>)
    requires acts != [] && q1 == Step(q, acts[0])
    ensures Run(q, acts) == Run(q1, acts[1..])
    ensures CompletedIn(acts) == CompletedIn([acts[0]]) + CompletedIn(acts[1..])
    ensures PostedIn(q, acts) == PostedIn(q, [acts[0]]) + PostedIn(q1, acts[1..])
  {
    assert [acts[0]][1..] == [];
  }

  lemma {:induction false} FetchUnroll(q: Q, q1: Q, acts: seq<Action>)
    requires acts != [] && q1 == Step(q, acts[0])
    ensures Run(q, acts) == Run(q1, acts[1..])
    ensures SubmittedIn(acts) == SubmittedIn([acts[0]]) + SubmittedIn(acts[1..])
    ensures FetchedIn(q, acts) == FetchedIn(q, [acts[0]]) + FetchedIn(q1, acts[1..])
  {
    assert [acts[0]][1..] == [];
  }

  /** From the start, over every run: the device finds the requests in the order
      in which they were submitted, none twice and none left out, and has found
      them all when it sees nothing new. */
  lemma {:induction false} DeviceOrder(q: Q, acts: seq<Action>)
    requires Init(q) && Runnable(q, acts)
    ensures FetchedIn(q, acts) <= SubmittedIn(acts)
    ensures Run(q, acts).rings.devIdx == Run(q, acts).rings.availIdx ==> FetchedIn(q, acts) == SubmittedIn(acts)
  {
    InitInv(q);
    FetchRun(q, acts);
    RunKeeps(q, acts);
    var q' := Run(q, acts);
    assert q'.h.subs == SubmittedIn(acts);
    if q'.h.taken < |q'.h.subs| {
      AvailWindow(q');
      SlotsDiffer(q'.h.taken, |q'.h.subs|, WRAP);
    }
  }

  /** And the handler posts to each request what the device reported for it, in
      the order of the reports, and has posted them all when it stops. */
  lemma {:induction false} HandlerOrder(q: Q, acts: seq<Action>)
    requires Init(q) && Runnable(q, acts)
    ensures PostedIn(q, acts) <= CompletedIn(acts)
    ensures !Run(q, acts).h.busy && Run(q, acts).rings.lastSeen == Run(q, acts).rings.usedIdx ==>
              PostedIn(q, acts) == CompletedIn(acts)
  {
    InitInv(q);
    PostRun(q, acts);
    RunKeeps(q, acts);
    var q' := Run(q, acts);
    assert q'.h.log == CompletedIn(acts);
    if !q'.h.busy {
      HandlerDone(q');
    }
  }
}
