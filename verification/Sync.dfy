/** Mutexes and semaphores: both hand over directly to the first waiter. */
module Sync {
  import opened Common
  import opened Scheduler
  import opened Dispatch
  import R = ReadyQueues

  // ------------------------------------------------------------------------- the mutex law

  /** A mutex with its history: the tasks in the order in which they asked for
      it, those left out that were destroyed while they waited, and in the order
      in which they got it. */
  datatype Lock = Lock(locked: bool, owner: Option<nat>, wq: seq<nat>, asked: seq<nat>, got: seq<nat>)

  datatype MutexAction = Acquire(t: nat) | Try(t: nat) | Release(t: nat) | Drop(t: nat)

  const UNLOCKED := Lock(false, None, [], [], [])

  function Take(m: Lock, t: nat): Lock {
    Lock(true, Some(t), m.wq, m.asked + [t], m.got + [t])
  }

  function MutexStep(m: Lock, act: MutexAction): Lock {
    match act
    case Acquire(t) => if m.locked then m.(wq := m.wq + [t], asked := m.asked + [t]) else Take(m, t)
    case Try(t) => if m.locked then m else Take(m, t)
    case Release(t) =>
      if !m.locked || m.owner != Some(t) then m
      else if m.wq != [] then Lock(true, Some(m.wq[0]), m.wq[1..], m.asked, m.got + [m.wq[0]])
      else Lock(false, None, m.wq, m.asked, m.got)
    case Drop(t) => m.(wq := Without(m.wq, t), asked := m.got + Without(m.wq, t))
  }

  /** Locked exactly when owned, waiters only while locked, the last one served
      is the owner, and service is in order of arrival. */
  ghost predicate MutexInv(m: Lock) {
    && (m.locked <==> m.owner.Some?) && (m.wq != [] ==> m.locked)
    && m.asked == m.got + m.wq
    && (m.locked ==> m.got != [] && m.owner == Some(m.got[|m.got| - 1]))
  }

  lemma {:induction false} MutexKeeps(m: Lock, act: MutexAction)
    requires MutexInv(m)
    ensures MutexInv(MutexStep(m, act)) && m.got <= MutexStep(m, act).got
    ensures !act.Drop? ==> m.asked <= MutexStep(m, act).asked
  {
    assert m.wq != [] ==> m.wq == [m.wq[0]] + m.wq[1..];
  }

  function MutexRun(m: Lock, acts: seq<MutexAction>): Lock
    decreases |acts|
  {
    if acts == [] then m else MutexRun(MutexStep(m, acts[0]), acts[1..])
  }

  /** Over every run, with waiters destroyed at any time, ownership passes in
      arrival order: who got the mutex is a prefix of who asked for it, and the
      rest still waits. */
  lemma {:induction false} MutexFifo(m: Lock, acts: seq<MutexAction>)
    requires MutexInv(m)
    ensures var m' := MutexRun(m, acts);
            MutexInv(m') && m.got <= m'.got <= m'.asked && m'.asked[|m'.got|..] == m'.wq
    decreases |acts|
  {
    if acts == [] {
      assert m.asked == m.got + m.wq;
    } else {
      MutexKeeps(m, acts[0]);
      MutexFifo(MutexStep(m, acts[0]), acts[1..]);
    }
  }

  /** The releases by the owner, in a run. */
  function Releases(m: Lock, acts: seq<MutexAction>): nat
    decreases |acts|
  {
    if acts == [] then 0
    else (if acts[0].Release? && m.owner == Some(acts[0].t) then 1 else 0) + Releases(MutexStep(m, acts[0]), acts[1..])
  }

  /** Over every run the grants that have ended are as many as the releases by
      an owner: all grants but the one of the owner there is. */
  lemma {:induction false} MutexEnds(m: Lock, acts: seq<MutexAction>)
    requires MutexInv(m)
    ensures var m' := MutexRun(m, acts);
            |m'.got| - (if m'.locked then 1 else 0) == |m.got| - (if m.locked then 1 else 0) + Releases(m, acts)
    decreases |acts|
  {
    if acts != [] {
      MutexKeeps(m, acts[0]);
      MutexEnds(MutexStep(m, acts[0]), acts[1..]);
    }
  }

  // ---------------------------------------------------------------------- the semaphore law

  datatype Sem = Sem(count: int, wq: seq<nat>, asked: seq<nat>, got: seq<nat>, posts: nat)

  datatype SemAction = Wait(t: nat) | TryTake(t: nat) | Post | Withdraw(t: nat)

  function SemTake(s: Sem, t: nat): Sem {
    Sem(s.count - 1, s.wq, s.asked + [t], s.got + [t], s.posts)
  }

  function SemStep(s: Sem, act: SemAction): Sem {
    match act
    case Wait(t) => if s.count <= 0 then s.(wq := s.wq + [t], asked := s.asked + [t]) else SemTake(s, t)
    case TryTake(t) => if s.count <= 0 then s else SemTake(s, t)
    case Post =>
      if s.wq != [] then Sem(s.count, s.wq[1..], s.asked, s.got + [s.wq[0]], s.posts + 1)
      else s.(count := s.count + 1, posts := s.posts + 1)
    case Withdraw(t) => s.(wq := Without(s.wq, t), asked := s.got + Without(s.wq, t))
  }

  /** What was there at the start and what was posted is still there or was
      granted; nobody waits while there is something to take. */
  ghost predicate SemInv(s: Sem, initial: int) {
    initial + s.posts == s.count + |s.got| && (s.count > 0 ==> s.wq == []) && s.asked == s.got + s.wq
  }

  lemma {:induction false} SemKeeps(s: Sem, initial: int, act: SemAction)
    requires SemInv(s, initial)
    ensures SemInv(SemStep(s, act), initial) && s.got <= SemStep(s, act).got
  {
    assert s.wq != [] ==> s.wq == [s.wq[0]] + s.wq[1..];
  }

  function SemRun(s: Sem, acts: seq<SemAction>): Sem
    decreases |acts|
  {
    if acts == [] then s else SemRun(SemStep(s, acts[0]), acts[1..])
  }

  function Posts(acts: seq<SemAction>): nat {
    if acts == [] then 0 else (if acts[0].Post? then 1 else 0) + Posts(acts[1..])
  }

  lemma {:induction false} SemConserves(s: Sem, initial: int, acts: seq<SemAction>)
    requires SemInv(s, initial)
    ensures var s' := SemRun(s, acts);
            SemInv(s', initial) && s.got <= s'.got <= s'.asked && s'.posts == s.posts + Posts(acts)
    decreases |acts|
  {
    if acts == [] {
      assert s.asked == s.got + s.wq;
    } else {
      SemKeeps(s, initial, acts[0]);
      SemConserves(SemStep(s, acts[0]), initial, acts[1..]);
    }
  }

  /** With a start value that is not negative, takes never exceed what was
      there: at most `initial + posts` grants, and exactly that many if a task
      waits. */
  lemma {:induction false} SemBound(initial: nat, acts: seq<SemAction>)
    ensures var s := SemRun(Sem(initial, [], [], [], 0), acts);
            && s.count >= 0 && |s.got| <= initial + Posts(acts) && (s.wq != [] ==> |s.got| == initial + Posts(acts))
  {
    var s0 := Sem(initial, [], [], [], 0);
    SemConserves(s0, initial, acts);
    SemNeverNegative(s0, initial, acts);
  }

  lemma {:induction false} SemNeverNegative(s: Sem, initial: int, acts: seq<SemAction>)
    requires SemInv(s, initial) && s.count >= 0
    ensures SemRun(s, acts).count >= 0
    decreases |acts|
  {
    if acts != [] {
      SemKeeps(s, initial, acts[0]);
      SemNeverNegative(SemStep(s, acts[0]), initial, acts[1..]);
    }
  }

  // ----------------------------------------------------------------- waiters and scheduler

  /** `t` is a task that is in no ready queue. */
  predicate Parked(s: Sched, t: nat) {
    t in s.prio && t !in QueueAt(s, s.prio[t])
  }

  /** The waiters are different tasks, all of them parked. */
  ghost predicate AllParked(s: Sched, wq: seq<nat>) {
    NoDup(wq) && forall t | t in wq :: Parked(s, t)
  }

  /** Blocking parks the active task and makes nobody ready. */
  lemma {:induction false} BlockParks(s: Sched, wq: seq<nat>)
    requires Inv(s) && Enabled(s, BlockLocked) && AllParked(s, wq)
    ensures AllParked(DoBlockLocked(s), wq + [s.active])
  {
    LeavesQueue(s);
    var s1 := Remove(s, s.active);
    var s' := DoBlockLocked(s);
    assert QueueOk(s, s.prio[s.active]);
    WithoutOk(QueueAt(s, s.prio[s.active]), s.active);
    if s.resched {
      assert QueueOk(s, s.highest);
      RotatedOk(QueueAt(s, s.highest));
    }
    forall t | t in wq + [s.active] ensures Parked(s', t) {
      assert t != s.active ==> Parked(s, t);
    }
    AppendOk(wq, s.active);
  }

  /** Making one task ready leaves the others parked. */
  lemma {:induction false} ReadyParks(s: Sched, t: nat, wq: seq<nat>)
    requires t in s.prio && AllParked(s, wq) && t !in wq
    ensures AllParked(DoReady(s, t), wq)
  {
    var s1 := UpdateHighest(s, t);
    SameParked(s, s1, wq);
    EnqueueParks(s1, t, wq);
    SameParked(Enqueue(s1, t), DoReady(s, t), wq);
  }

  lemma {:induction false} EnqueueParks(s: Sched, t: nat, wq: seq<nat>)
    requires AllParked(s, wq) && t !in wq
    ensures AllParked(Enqueue(s, t), wq)
  {
    forall x | x in wq ensures Parked(Enqueue(s, t), x) {
      EnqueueOther(s, t, x);
    }
  }

  lemma {:induction false} EnqueueOther(s: Sched, t: nat, x: nat)
    requires Parked(s, x) && x != t
    ensures Parked(Enqueue(s, t), x)
  {
  }

  lemma {:induction false} EnableParks(s: Sched, wq: seq<nat>)
    requires Inv(s) && s.preempt > 0 && AllParked(s, wq)
    ensures AllParked(DoEnable(s), wq)
  {
    assert QueueOk(s, s.highest);
    RotatedOk(QueueAt(s, s.highest));
    forall x | x in wq ensures Parked(DoEnable(s), x) {
      assert Parked(s, x);
    }
  }

  /** A destroyed waiter leaves the queue; the others stay parked. */
  lemma {:induction false} DestroyParks(s: Sched, t: nat, wq: seq<nat>)
    requires Inv(s) && Enabled(s, Destroy(t)) && AllParked(s, wq)
    ensures AllParked(DoDestroy(s, t), Without(wq, t))
  {
    WithoutOk(wq, t);
    var q := QueueAt(s, s.prio[t]);
    assert QueueOk(s, s.prio[t]);
    WithoutOk(q, t);
    forall x | x in Without(wq, t) ensures Parked(DoDestroy(s, t), x) {
      assert Parked(s, x);
    }
  }

  /** Taking and giving back a spinlock changes nothing: a switch can only be
      pending while preemption was off already. */
  lemma {:induction false} LockUnlock(s: Sched)
    requires Inv(s)
    ensures DoEnable(Step(s, Disable)) == s
  {
  }

  /** A task made ready under a spinlock is ready when the lock is given back,
      and so are those that were. */
  lemma {:induction false} HandedReady(s: Sched, w: nat)
    requires Inv(s) && w in s.prio
    ensures var s' := Step(Step(Step(s, Disable), Ready(w)), Enable);
            forall t :: R.IsReady(s', t) <==> t == w || R.IsReady(s, t)
  {
    var s1 := Step(s, Disable);
    var s2 := Step(s1, Ready(w));
    StepKeeps(s, Disable);
    StepKeeps(s1, Ready(w));
    R.ReadyWakes(s1, w);
    forall t ensures R.IsReady(Step(s2, Enable), t) <==> t == w || R.IsReady(s, t) {
      R.ReadyExactly(s, Disable, t);
      R.ReadyExactly(s1, Ready(w), t);
      R.ReadyExactly(s2, Enable, t);
    }
  }

  class Mutex {
    var locked: bool
    var owner: Option<nat>
    var wq: seq<nat>
    ghost var asked: seq<nat>
    ghost var got: seq<nat>

    ghost function V(): Lock
      reads this
    {
      Lock(locked, owner, wq, asked, got)
    }

    ghost predicate Valid(d: Dispatcher)
      reads this, d
    {
      MutexInv(V()) && AllParked(d.S(), wq)
    }

    constructor (ghost d: Dispatcher)
      ensures V() == UNLOCKED && Valid(d)
    {
      locked, owner, wq, asked, got := false, None, [], [], [];
    }

    /** mutex_lock by the active task; it returns with the mutex, now or when
        it runs again. */
    method Acquire(d: Dispatcher)
      requires Valid(d) && Inv(d.S()) && d.preempt == 0 && d.active != d.idle
      modifies this, d`queues, d`highest, d`active, d`preempt, d`resched
      ensures Valid(d) && Inv(d.S()) && V() == MutexStep(old(V()), MutexAction.Acquire(old(d.active)))
      ensures locked && owner == if old(locked) then old(owner) else Some(old(d.active))
      ensures wq == if old(locked) then old(wq) + [old(d.active)] else old(wq)
      ensures !old(locked) ==> d.S() == old(d.S())
      ensures old(locked) ==> d.S() == Step(Step(old(d.S()), Disable), BlockLocked) && !R.IsReady(d.S(), old(d.active))
    {
      MutexKeeps(V(), MutexAction.Acquire(d.active));
      LockUnlock(d.S());
      SpinLock(d, wq);
      asked := asked + [d.active];
      if !locked {
        got := got + [d.active];
        locked, owner := true, Some(d.active);
        d.EnablePreempt();
      } else {
        BlockParks(d.S(), wq);
        wq := wq + [d.active];
        d.BlockOnLocked();
      }
    }

    /** mutex_trylock */
    method TryAcquire(d: Dispatcher) returns (ok: bool)
      requires Valid(d) && Inv(d.S())
      modifies this, d`preempt, d`resched, d`queues, d`active
      ensures Valid(d) && d.S() == old(d.S()) && ok == !old(locked)
      ensures V() == MutexStep(old(V()), Try(d.active))
      ensures locked && owner == (if old(locked) then old(owner) else Some(d.active)) && wq == old(wq)
    {
      MutexKeeps(V(), Try(d.active));
      LockUnlock(d.S());
      d.DisablePreempt();
      ok := !locked;
      if ok {
        asked, got := asked + [d.active], got + [d.active];
        locked, owner := true, Some(d.active);
      }
      d.EnablePreempt();
    }

    /** mutex_unlock: only the owner can, and the first waiter gets it. */
    method Release(d: Dispatcher)
      requires Valid(d) && Inv(d.S())
      modifies this, d`queues, d`highest, d`active, d`preempt, d`resched
      ensures Valid(d) && Inv(d.S()) && V() == MutexStep(old(V()), MutexAction.Release(old(d.active)))
      ensures var own := old(locked) && old(owner) == Some(old(d.active));
              && (!own ==> locked == old(locked) && owner == old(owner) && wq == old(wq) && d.S() == old(d.S()))
              && (own && old(wq) == [] ==> !locked && owner == None && wq == [] && d.S() == old(d.S()))
              && (own && old(wq) != [] ==>
                    && locked && owner == Some(old(wq)[0]) && wq == old(wq)[1..]
                    && d.S() == Step(Step(Step(old(d.S()), Disable), Ready(old(wq)[0])), Enable)
                    && forall t :: R.IsReady(d.S(), t) <==> t == old(wq)[0] || R.IsReady(old(d.S()), t))
    {
      MutexKeeps(V(), MutexAction.Release(d.active));
      LockUnlock(d.S());
      if wq != [] {
        TailParked(d.S(), wq);
        HandedReady(d.S(), wq[0]);
      }
      SpinLock(d, wq);
      Hand(d);
      SpinUnlock(d, wq);
    }

    /** task_destroy of a task that may wait for this mutex. */
    method Drop(d: Dispatcher, t: nat)
      requires Valid(d) && Inv(d.S()) && Enabled(d.S(), Destroy(t)) && d.Asleep()
      modifies this`wq, this`asked, d`queues, d`prio, d`sleeping
      ensures Valid(d) && Inv(d.S()) && d.Asleep() && d.S() == Step(old(d.S()), Destroy(t))
      ensures V() == MutexStep(old(V()), MutexAction.Drop(t)) && t !in wq && R.Left(old(wq), t, wq)
    {
      MutexKeeps(V(), MutexAction.Drop(t));
      DestroyParks(d.S(), t, wq);
      WithoutOk(wq, t);
      R.WithoutLeft(wq, t);
      wq := Without(wq, t);
      asked := got + wq;
      d.SchedulerForget(t);
    }

    /** The section under the spin lock: the first waiter becomes the owner. */
    method Hand(d: Dispatcher)
      requires Inv(d.S()) && AllParked(d.S(), wq)
      modifies this, d`queues, d`highest, d`active, d`resched
      ensures V() == MutexStep(old(V()), MutexAction.Release(old(d.active))) && Inv(d.S()) && AllParked(d.S(), wq)
      ensures var own := old(locked) && old(owner) == Some(old(d.active));
              && d.S() == (if own && old(wq) != [] then Step(old(d.S()), Ready(old(wq)[0])) else old(d.S()))
              && (if !own then locked == old(locked) && owner == old(owner) && wq == old(wq)
                  else if old(wq) == [] then !locked && owner == None && wq == []
                  else locked && owner == Some(old(wq)[0]) && wq == old(wq)[1..])
    {
      if locked && owner == Some(d.active) {
        if wq != [] {
          var t := wq[0];
          WakeFirst(d, wq);
          got := got + [t];
          wq := wq[1..];
          owner := Some(t);
        } else {
          locked, owner := false, None;
        }
      }
    }
  }

  class Semaphore {
    var count: int
    var wq: seq<nat>
    ghost const initial: int
    ghost var asked: seq<nat>
    ghost var got: seq<nat>
    ghost var posts: nat

    ghost function V(): Sem
      reads this
    {
      Sem(count, wq, asked, got, posts)
    }

    ghost predicate Valid(d: Dispatcher)
      reads this, d
    {
      SemInv(V(), initial) && AllParked(d.S(), wq)
    }

    constructor (val: int, ghost d: Dispatcher)
      ensures V() == Sem(val, [], [], [], 0) && initial == val && Valid(d)
    {
      count, wq, initial, asked, got, posts := val, [], val, [], [], 0;
    }

    /** sem_wait by the active task. */
    method Wait(d: Dispatcher)
      requires Valid(d) && Inv(d.S()) && d.preempt == 0 && d.active != d.idle
      modifies this, d`queues, d`highest, d`active, d`preempt, d`resched
      ensures Valid(d) && Inv(d.S()) && V() == SemStep(old(V()), SemAction.Wait(old(d.active)))
      ensures old(count) > 0 ==> count == old(count) - 1 && wq == old(wq) && d.S() == old(d.S())
      ensures old(count) <= 0 ==>
                && count == old(count) && wq == old(wq) + [old(d.active)] && !R.IsReady(d.S(), old(d.active))
                && d.S() == Step(Step(old(d.S()), Disable), BlockLocked)
    {
      SemKeeps(V(), initial, SemAction.Wait(d.active));
      LockUnlock(d.S());
      SpinLock(d, wq);
      asked := asked + [d.active];
      if count <= 0 {
        BlockParks(d.S(), wq);
        wq := wq + [d.active];
        d.BlockOnLocked();
      } else {
        count := count - 1;
        got := got + [d.active];
        d.EnablePreempt();
      }
    }

    /** sem_try_take */
    method TryTake(d: Dispatcher) returns (ok: bool)
      requires Valid(d) && Inv(d.S())
      modifies this, d`preempt, d`resched, d`queues, d`active
      ensures Valid(d) && d.S() == old(d.S()) && ok == (old(count) > 0)
      ensures count == old(count) - (if ok then 1 else 0) && wq == old(wq)
      ensures V() == SemStep(old(V()), SemAction.TryTake(d.active))
    {
      SemKeeps(V(), initial, SemAction.TryTake(d.active));
      LockUnlock(d.S());
      d.DisablePreempt();
      ok := count > 0;
      if ok {
        count := count - 1;
        asked, got := asked + [d.active], got + [d.active];
      }
      d.EnablePreempt();
    }

    /** sem_post, also from the interrupt handlers. */
    method Post(d: Dispatcher)
      requires Valid(d) && Inv(d.S())
      modifies this, d`queues, d`highest, d`active, d`preempt, d`resched
      ensures Valid(d) && Inv(d.S()) && V() == SemStep(old(V()), SemAction.Post)
      ensures old(wq) == [] ==> count == old(count) + 1 && wq == [] && d.S() == old(d.S())
      ensures old(wq) != [] ==>
                && count == old(count) && wq == old(wq)[1..]
                && d.S() == Step(Step(Step(old(d.S()), Disable), Ready(old(wq)[0])), Enable)
                && forall t :: R.IsReady(d.S(), t) <==> t == old(wq)[0] || R.IsReady(old(d.S()), t)
    {
      SemKeeps(V(), initial, SemAction.Post);
      LockUnlock(d.S());
      if wq != [] {
        TailParked(d.S(), wq);
        HandedReady(d.S(), wq[0]);
      }
      SpinLock(d, wq);
      Grant(d);
      SpinUnlock(d, wq);
    }

    /** task_destroy of a task that may wait for this semaphore. */
    method Withdraw(d: Dispatcher, t: nat)
      requires Valid(d) && Inv(d.S()) && Enabled(d.S(), Destroy(t)) && d.Asleep()
      modifies this`wq, this`asked, d`queues, d`prio, d`sleeping
      ensures Valid(d) && Inv(d.S()) && d.Asleep() && d.S() == Step(old(d.S()), Destroy(t))
      ensures V() == SemStep(old(V()), SemAction.Withdraw(t)) && t !in wq && R.Left(old(wq), t, wq)
    {
      SemKeeps(V(), initial, SemAction.Withdraw(t));
      DestroyParks(d.S(), t, wq);
      WithoutOk(wq, t);
      R.WithoutLeft(wq, t);
      wq := Without(wq, t);
      asked := got + wq;
      d.SchedulerForget(t);
    }

    /** The section under the spin lock. */
    method Grant(d: Dispatcher)
      requires Inv(d.S()) && AllParked(d.S(), wq)
      modifies this, d`queues, d`highest, d`active, d`resched
      ensures V() == SemStep(old(V()), SemAction.Post) && Inv(d.S()) && AllParked(d.S(), wq)
      ensures d.S() == if old(wq) != [] then Step(old(d.S()), Ready(old(wq)[0])) else old(d.S())
    {
      posts := posts + 1;
      if wq != [] {
        HandOver(d);
      } else {
        count := count + 1;
      }
    }

    method HandOver(d: Dispatcher)
      requires wq != [] && Inv(d.S()) && AllParked(d.S(), wq)
      modifies this`wq, this`got, d`queues, d`highest, d`active, d`resched
      ensures wq == old(wq)[1..] && got == old(got) + [old(wq)[0]]
      ensures d.S() == Step(old(d.S()), Ready(old(wq)[0])) && Inv(d.S()) && AllParked(d.S(), wq)
    {
      WakeFirst(d, wq);
      got := got + [wq[0]];
      wq := wq[1..];
    }
  }

  /** spinlock_lock; `wq` is the wait queue the lock protects. */
  method SpinLock(d: Dispatcher, ghost wq: seq<nat>)
    requires Inv(d.S()) && AllParked(d.S(), wq)
    modifies d`preempt
    ensures d.S() == Step(old(d.S()), Disable) && Inv(d.S()) && AllParked(d.S(), wq)
  {
    ghost var s := d.S();
    d.DisablePreempt();
    SameParked(s, d.S(), wq);
  }

  /** spinlock_unlock */
  method SpinUnlock(d: Dispatcher, ghost wq: seq<nat>)
    requires Inv(d.S()) && d.preempt > 0 && AllParked(d.S(), wq)
    modifies d`preempt, d`resched, d`queues, d`active
    ensures d.S() == Step(old(d.S()), Enable) && Inv(d.S()) && AllParked(d.S(), wq)
  {
    EnableParks(d.S(), wq);
    EnableKeeps(d.S());
    d.EnablePreempt();
  }

  /** The hand-over: the first waiter becomes ready, the others stay parked. */
  method WakeFirst(d: Dispatcher, wq: seq<nat>)
    requires Inv(d.S()) && AllParked(d.S(), wq) && wq != []
    modifies d`queues, d`highest, d`active, d`resched
    ensures d.S() == Step(old(d.S()), Ready(wq[0])) && Inv(d.S()) && AllParked(d.S(), wq[1..])
  {
    TailParked(d.S(), wq);
    ReadyParks(d.S(), wq[0], wq[1..]);
    d.SchedulerReady(wq[0]);
  }

  lemma {:induction false} SameParked(s: Sched, s': Sched, wq: seq<nat>)
    requires AllParked(s, wq) && s'.prio == s.prio && s'.queues == s.queues
    ensures AllParked(s', wq)
  {
    forall t | t in wq ensures Parked(s', t) {
      assert Parked(s, t);
    }
  }

  lemma {:induction false} TailParked(s: Sched, wq: seq<nat>)
    requires AllParked(s, wq) && wq != []
    ensures AllParked(s, wq[1..]) && wq[0] !in wq[1..] && wq[0] in s.prio
  {
    assert Parked(s, wq[0]);
    assert forall i | 0 <= i < |wq| - 1 :: wq[1..][i] == wq[i + 1];
  }
}
