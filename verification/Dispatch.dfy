/** The scheduler's own code: its variables updated in place, each operation
    proved to be the step of the same name and to have its effect on the ready
    queues. */
module Dispatch {
  import opened Common
  import opened Scheduler
  import R = ReadyQueues

  datatype Sleeper = Sleeper(t: nat, wake: nat)

  class Dispatcher {
    var prio: map<nat, nat>
    var queues: seq<seq<nat>>
    var highest: nat
    var active: nat
    var preempt: nat
    var resched: bool
    var sleeping: seq<Sleeper>
    const idle: nat

    function S(): Sched
      reads this
    {
      Sched(prio, idle, queues, highest, active, preempt, resched)
    }

    /** The sleepers are tasks, in the order in which they wake. */
    ghost predicate Asleep()
      reads this
    {
      Sorted(sleeping) && forall x | x in sleeping :: x.t in prio
    }

    /** scheduler_init, then init_idle. */
    constructor (idle: nat)
      ensures S() == Initial(idle) && Inv(S()) && sleeping == [] && this.idle == idle && Asleep()
    {
      this.idle := idle;
      prio, queues, highest := map[idle := IDLE], [[], [], [], [idle]], IDLE;
      active, preempt, resched, sleeping := idle, 0, false, [];
      new;
      InitialInv(idle);
    }

    /** ready_queue_enqueue: clist_push_back skips a node that is in a list. */
    method ReadyEnqueue(t: nat)
      requires |queues| == PRIORITY_COUNT && t in prio && prio[t] < PRIORITY_COUNT
      modifies this`queues
      ensures S() == Enqueue(old(S()), t)
    {
      var p := prio[t];
      if t !in queues[p] {
        queues := queues[p := queues[p] + [t]];
      }
    }

    /** check_and_preempt */
    method CheckAndPreempt(t: nat)
      requires t in prio && active in prio
      modifies this`active, this`resched
      ensures S() == CheckPreempt(old(S()), t)
    {
      if prio[t] < prio[active] {
        if preempt > 0 {
          resched := true;
        } else {
          active := t;
        }
      }
    }

    /** The body of scheduler_admit. */
    method AdmitTask(t: nat, p: nat)
      requires |queues| == PRIORITY_COUNT && p < PRIORITY_COUNT && active in prio
      modifies this`prio, this`queues, this`highest, this`active, this`resched
      ensures S() == DoAdmit(old(S()), t, p)
    {
      prio := prio[t := p];
      ReadyEnqueue(t);
      if p < highest {
        highest := p;
      }
      CheckAndPreempt(t);
    }

    /** scheduler_admit */
    method SchedulerAdmit(t: nat, p: nat)
      requires Inv(S()) && Enabled(S(), Admit(t, p))
      modifies this`prio, this`queues, this`highest, this`active, this`resched
      ensures S() == Step(old(S()), Admit(t, p)) && Inv(S()) && (old(Asleep()) ==> Asleep())
      ensures R.Effect(old(S()), Admit(t, p), S())
    {
      R.StepEffect(S(), Admit(t, p));
      AdmitTask(t, p);
    }

    /** scheduler_ready_task */
    method SchedulerReady(t: nat)
      requires |queues| == PRIORITY_COUNT && t in prio && prio[t] < PRIORITY_COUNT && active in prio
      modifies this`queues, this`highest, this`active, this`resched
      ensures S() == Step(old(S()), Ready(t)) && (old(Inv(S())) ==> Inv(S()))
      ensures R.Effect(old(S()), Ready(t), S()) && R.IsReady(S(), t)
    {
      ghost var s := S();
      if Inv(s) {
        ReadyKeeps(s, t);
      }
      R.ReadyWakes(s, t);
      if prio[t] < highest {
        highest := prio[t];
      }
      ReadyEnqueue(t);
      CheckAndPreempt(t);
    }

    /** scheduler_rotate with rotate_ready_queue */
    method SchedulerRotate()
      requires |queues| == PRIORITY_COUNT && highest < PRIORITY_COUNT && queues[highest] != []
      modifies this`queues, this`active
      ensures S() == DoRotate(old(S()))
      ensures old(Inv(S())) ==> Inv(S()) && R.Effect(old(S()), Rotate, S())
    {
      if Inv(S()) {
        R.StepEffect(S(), Rotate);
      }
      if preempt > 0 {
        return;
      }
      var q := queues[highest];
      if |q| > 1 {
        queues := queues[highest := q[1..] + [q[0]]];
      }
      active := queues[highest][0];
    }

    method DisablePreempt()
      requires Inv(S())
      modifies this`preempt
      ensures S() == Step(old(S()), Disable) && Inv(S()) && R.Effect(old(S()), Disable, S())
    {
      DisableKeeps(S());
      preempt := preempt + 1;
    }

    /** scheduler_enable_preempt: a delayed switch is taken now. */
    method EnablePreempt()
      requires |queues| == PRIORITY_COUNT && highest < PRIORITY_COUNT && preempt > 0
      requires preempt == 1 && resched ==> queues[highest] != []
      modifies this`preempt, this`resched, this`queues, this`active
      ensures S() == DoEnable(old(S()))
      ensures old(Inv(S())) ==> Inv(S()) && R.Effect(old(S()), Enable, S())
    {
      if Inv(S()) {
        R.StepEffect(S(), Enable);
      }
      preempt := preempt - 1;
      if preempt == 0 && resched {
        resched := false;
        SchedulerRotate();
      }
    }

    /** refresh_highest_prio */
    method RefreshHighest()
      requires Queues(S())
      modifies this`highest
      ensures S() == Refresh(old(S()))
    {
      if queues[highest] != [] {
        return;
      }
      var p := highest + 1;
      ghost var s := S();
      while p < PRIORITY_COUNT && queues[p] == []
        invariant highest < p <= PRIORITY_COUNT && S() == s && |queues| == PRIORITY_COUNT
        invariant FirstFrom(s, s.highest + 1) == FirstFrom(s, p)
      {
        p := p + 1;
      }
      if p < PRIORITY_COUNT {
        highest := p;
      }
    }

    /** switch_out_active */
    method SwitchOutActive()
      requires Queues(S()) && preempt == 0 && !resched && forall p | 0 <= p < highest :: QueueAt(S(), p) == []
      modifies this`highest, this`active
      ensures S() == SwitchOut(old(S())) && Inv(S())
    {
      SwitchOutFinds(S());
      RefreshHighest();
      active := queues[highest][0];
    }

    /** ready_queue_remove of the active task: the search of clist_remove is
        done by its links. */
    method ReadyRemove(t: nat)
      requires |queues| == PRIORITY_COUNT && t in prio && prio[t] < PRIORITY_COUNT
      modifies this`queues
      ensures S() == Remove(old(S()), t)
    {
      queues := queues[prio[t] := Without(queues[prio[t]], t)];
    }

    /** scheduler_block_on: the caller has put the task on a wait queue. */
    method BlockOn()
      requires Inv(S()) && Enabled(S(), Block)
      modifies this`queues, this`highest, this`active
      ensures S() == Step(old(S()), Block) && Inv(S()) && R.Effect(old(S()), Block, S())
      ensures forall t :: R.IsReady(S(), t) <==> t != old(active) && R.IsReady(old(S()), t)
    {
      BlockSpec(S());
      LeavesQueue(S());
      ReadyRemove(active);
      SwitchOutActive();
    }

    /** scheduler_block_on_locked, until another task runs. */
    method BlockOnLocked()
      requires Inv(S()) && Enabled(S(), BlockLocked)
      modifies this`queues, this`highest, this`active, this`preempt, this`resched
      ensures S() == Step(old(S()), BlockLocked) && Inv(S()) && R.Effect(old(S()), BlockLocked, S())
      ensures forall t :: R.IsReady(S(), t) <==> t != old(active) && R.IsReady(old(S()), t)
    {
      ghost var s := S();
      BlockLockedSpec(s);
      BlockLockedKeeps(s);
      LeavesQueue(s);
      ReadyRemove(active);
      var switched := resched;
      EnablePreempt();
      if !switched {
        LockGone(s, S());
        SwitchOutActive();
      }
    }

    /** scheduler_exit, with the parent to wake if it waits for its children. */
    method SchedulerExit(parent: Option<nat>)
      requires Inv(S()) && Enabled(S(), Exit(parent))
      modifies this`queues, this`highest, this`active, this`resched
      ensures S() == Step(old(S()), Exit(parent)) && Inv(S()) && R.Effect(old(S()), Exit(parent), S())
      ensures forall t :: R.IsReady(S(), t) <==> parent == Some(t) || (t != old(active) && R.IsReady(old(S()), t))
    {
      ghost var s := S();
      ExitSpec(s, parent);
      ExitKeeps(s, parent);
      LeavesQueue(s);
      var leaving := active;
      ReadyRemove(active);
      if parent.Some? {
        WakeLeaving(S(), parent.value);
        SchedulerReady(parent.value);
        if active != leaving {
          return;
        }
      }
      SwitchOutActive();
    }

    /** task_destroy, as far as the scheduler is concerned: the task leaves the
        ready and the sleeping queues. */
    method SchedulerForget(t: nat)
      requires Inv(S()) && Enabled(S(), Destroy(t)) && Asleep()
      modifies this`queues, this`prio, this`sleeping
      ensures S() == Step(old(S()), Destroy(t)) && Inv(S()) && Asleep() && R.Effect(old(S()), Destroy(t), S())
      ensures sleeping == Awoken(old(sleeping), t) && forall x :: x in sleeping <==> x in old(sleeping) && x.t != t
    {
      R.StepEffect(S(), Destroy(t));
      AwokenIs(sleeping, t);
      ReadyRemove(t);
      sleeping := Awoken(sleeping, t);
      prio := prio - {t};
    }

    /** scheduler_sleep: the active task sleeps until `wake`. */
    method SchedulerSleep(wake: nat)
      requires Inv(S()) && Enabled(S(), Block) && Asleep()
      modifies this`queues, this`highest, this`active, this`sleeping
      ensures S() == Step(old(S()), Block) && Inv(S()) && R.Effect(old(S()), Block, S())
      ensures forall t :: R.IsReady(S(), t) <==> t != old(active) && R.IsReady(old(S()), t)
      ensures sleeping == Inserted(old(sleeping), Sleeper(old(active), wake)) && Asleep()
    {
      InsertedSorted(sleeping, Sleeper(active, wake));
      InsertedFrom(sleeping, Sleeper(active, wake));
      InsertSleep(Sleeper(active, wake));
      BlockOn();
    }

    /** clist_insert_sorted: behind every sleeper that does not wake later. */
    method InsertSleep(x: Sleeper)
      modifies this`sleeping
      ensures sleeping == Inserted(old(sleeping), x)
    {
      var i := 0;
      while i < |sleeping| && sleeping[i].wake <= x.wake
        invariant 0 <= i <= |sleeping|
        invariant Inserted(sleeping, x) == sleeping[..i] + Inserted(sleeping[i..], x)
      {
        assert sleeping[i..][1..] == sleeping[i + 1..];
        i := i + 1;
      }
      sleeping := sleeping[..i] + [x] + sleeping[i..];
    }

    /** scheduler_wake_sleeping, called by the tick daemon, which has the best
        priority: every due task becomes ready, and none is switched to. */
    method WakeSleeping(now: nat)
      requires Inv(S()) && prio[active] == HIGH && Asleep()
      modifies this`queues, this`highest, this`active, this`resched, this`sleeping
      ensures Inv(S()) && S() == ReadyAll(old(S()), Due(old(sleeping), now)) && active == old(active)
      ensures sleeping == Later(old(sleeping), now) && Asleep()
      ensures forall x :: x in sleeping <==> x in old(sleeping) && x.wake > now
      ensures forall t :: R.IsReady(S(), t) <==> R.IsReady(old(S()), t) || IsDue(old(sleeping), now, t)
      ensures forall p: nat :: QueueAt(old(S()), p) <= QueueAt(S(), p)
    {
      LaterIs(sleeping, now);
      DueReady(S(), sleeping, now);
      var i := 0;
      ghost var s0, done, rest := S(), [], sleeping;
      ghost var later, woken := Later(sleeping, now), ReadyAll(s0, Due(sleeping, now));
      while i < |sleeping|
        invariant i == |done| && sleeping == done + rest && (forall x | x in rest :: x.t in prio)
        invariant Inv(S()) && prio == s0.prio && active == s0.active
        invariant later == done + Later(rest, now) && woken == ReadyAll(S(), Due(rest, now))
        decreases |rest|
      {
        Passed(done, rest, now);
        Woken(S(), rest, now);
        if sleeping[i].wake > now {
          done, rest := done + [rest[0]], rest[1..];
          i := i + 1;
        } else {
          rest := rest[1..];
          WakeAt(i);
        }
      }
    }

    /** A due sleeper leaves the queue and becomes ready. */
    method WakeAt(i: nat)
      requires i < |sleeping| && Inv(S()) && prio[active] == HIGH && sleeping[i].t in prio
      modifies this`queues, this`highest, this`active, this`resched, this`sleeping
      ensures sleeping == old(sleeping)[..i] + old(sleeping)[i + 1..]
      ensures S() == DoReady(old(S()), old(sleeping)[i].t) && Inv(S()) && active == old(active) && prio == old(prio)
    {
      var t := sleeping[i].t;
      sleeping := sleeping[..i] + sleeping[i + 1..];
      SchedulerReady(t);
    }
  }

  lemma {:induction false} BlockSpec(s: Sched)
    requires Inv(s) && Enabled(s, Block)
    ensures R.Effect(s, Block, Step(s, Block))
    ensures forall t :: R.IsReady(Step(s, Block), t) <==> t != s.active && R.IsReady(s, t)
  {
    R.StepEffect(s, Block);
    forall t ensures R.IsReady(Step(s, Block), t) <==> t != s.active && R.IsReady(s, t) {
      R.ReadyExactly(s, Block, t);
    }
  }

  lemma {:induction false} BlockLockedSpec(s: Sched)
    requires Inv(s) && Enabled(s, BlockLocked)
    ensures R.Effect(s, BlockLocked, Step(s, BlockLocked))
    ensures forall t :: R.IsReady(Step(s, BlockLocked), t) <==> t != s.active && R.IsReady(s, t)
  {
    R.StepEffect(s, BlockLocked);
    forall t ensures R.IsReady(Step(s, BlockLocked), t) <==> t != s.active && R.IsReady(s, t) {
      R.ReadyExactly(s, BlockLocked, t);
    }
  }

  lemma {:induction false} ExitSpec(s: Sched, wake: Option<nat>)
    requires Inv(s) && Enabled(s, Exit(wake))
    ensures R.Effect(s, Exit(wake), Step(s, Exit(wake)))
    ensures forall t ::
              R.IsReady(Step(s, Exit(wake)), t) <==> wake == Some(t) || (t != s.active && R.IsReady(s, t))
  {
    R.StepEffect(s, Exit(wake));
    forall t ensures R.IsReady(Step(s, Exit(wake)), t) <==> wake == Some(t) || (t != s.active && R.IsReady(s, t)) {
      R.ReadyExactly(s, Exit(wake), t);
    }
  }

  ghost predicate Sorted(q: seq<Sleeper>) {
    forall i, j | 0 <= i < j < |q| :: q[i].wake <= q[j].wake
  }

  function Inserted(q: seq<Sleeper>, x: Sleeper): seq<Sleeper> {
    if q == [] || q[0].wake > x.wake then [x] + q else [q[0]] + Inserted(q[1..], x)
  }

  lemma {:induction false} InsertedHolds(q: seq<Sleeper>, x: Sleeper)
    ensures multiset(Inserted(q, x)) == multiset(q) + multiset{x}
  {
    if q != [] && q[0].wake <= x.wake {
      assert q == [q[0]] + q[1..];
      InsertedHolds(q[1..], x);
    }
  }

  lemma {:induction false} InsertedFrom(q: seq<Sleeper>, x: Sleeper)
    ensures forall y :: y in Inserted(q, x) <==> y in q || y == x
  {
    InsertedHolds(q, x);
    forall y ensures y in Inserted(q, x) <==> y in q || y == x {
      assert y in Inserted(q, x) <==> y in multiset(Inserted(q, x));
      assert y in q <==> y in multiset(q);
    }
  }

  /** The sleepers without task `t`. */
  function Awoken(q: seq<Sleeper>, t: nat): seq<Sleeper> {
    if q == [] then [] else if q[0].t == t then Awoken(q[1..], t) else [q[0]] + Awoken(q[1..], t)
  }

  lemma {:induction false} AwokenIs(q: seq<Sleeper>, t: nat)
    ensures forall x :: x in Awoken(q, t) <==> x in q && x.t != t
    ensures Sorted(q) ==> Sorted(Awoken(q, t))
  {
    if q != [] {
      TailSorted(q);
      AwokenIs(q[1..], t);
      if q[0].t != t && Sorted(q) {
        SortedCons(q[0], Awoken(q[1..], t));
      }
    }
  }

  lemma {:induction false} TailSorted(q: seq<Sleeper>)
    requires q != []
    ensures q == [q[0]] + q[1..]
    ensures Sorted(q) ==> Sorted(q[1..]) && forall x | x in q[1..] :: q[0].wake <= x.wake
  {
    assert forall i | 0 <= i < |q| - 1 :: q[1..][i] == q[i + 1];
  }

  lemma {:induction false} LaterIs(q: seq<Sleeper>, now: nat)
    ensures forall x :: x in Later(q, now) <==> x in q && x.wake > now
    ensures Sorted(q) ==> Sorted(Later(q, now))
  {
    if q != [] {
      TailSorted(q);
      LaterIs(q[1..], now);
      if q[0].wake > now && Sorted(q) {
        SortedCons(q[0], Later(q[1..], now));
      }
    }
  }

  /** `x` belongs at `k`: behind all that do not wake later. */
  ghost predicate Between(q: seq<Sleeper>, x: Sleeper, k: nat) {
    && k <= |q| && (forall j | 0 <= j < k :: q[j].wake <= x.wake)
    && forall j | k <= j < |q| :: x.wake < q[j].wake
  }

  lemma {:induction false} InsertedAt(q: seq<Sleeper>, x: Sleeper) returns (k: nat)
    requires Sorted(q)
    ensures Between(q, x, k) && Inserted(q, x) == q[..k] + [x] + q[k..]
  {
    if q == [] || q[0].wake > x.wake {
      k := 0;
    } else {
      TailSorted(q);
      var i := InsertedAt(q[1..], x);
      k := i + 1;
      assert q[..k] == [q[0]] + q[1..][..i] && q[k..] == q[1..][i..];
      assert forall j | 1 <= j < |q| :: q[j] == q[1..][j - 1];
    }
  }

  /** The queue stays sorted, and nothing but `x` comes into it, behind all
      that do not wake later. */
  lemma {:induction false} InsertedSorted(q: seq<Sleeper>, x: Sleeper)
    requires Sorted(q)
    ensures Sorted(Inserted(q, x)) && multiset(Inserted(q, x)) == multiset(q) + multiset{x}
    ensures exists k: nat :: Between(q, x, k) && Inserted(q, x) == q[..k] + [x] + q[k..]
  {
    InsertedHolds(q, x);
    var k := InsertedAt(q, x);
    if q != [] && q[0].wake <= x.wake {
      var tail := q[1..];
      assert Sorted(tail) by {
        assert forall i | 0 <= i < |tail| :: tail[i] == q[i + 1];
      }
      InsertedSorted(tail, x);
      InsertedHolds(tail, x);
      var rest := Inserted(tail, x);
      forall i | 0 <= i < |rest| ensures q[0].wake <= rest[i].wake {
        assert rest[i] in multiset(rest);
        assert rest[i] == x || rest[i] in tail;
      }
      SortedCons(q[0], rest);
    }
  }

  lemma {:induction false} SortedCons(x: Sleeper, q: seq<Sleeper>)
    requires Sorted(q) && forall i | 0 <= i < |q| :: x.wake <= q[i].wake
    ensures Sorted([x] + q)
  {
  }

  function Later(q: seq<Sleeper>, now: nat): seq<Sleeper> {
    if q == [] then [] else if q[0].wake > now then [q[0]] + Later(q[1..], now) else Later(q[1..], now)
  }

  /** One turn of the wake-up loop, in the queue and in the scheduler. */
  lemma {:induction false} Passed(done: seq<Sleeper>, rest: seq<Sleeper>, now: nat)
    requires rest != []
    ensures (done + rest)[|done|] == rest[0] && done + rest == (done + [rest[0]]) + rest[1..]
    ensures (done + rest)[..|done|] + (done + rest)[|done| + 1..] == done + rest[1..]
    ensures done + Later(rest, now) ==
            (if rest[0].wake > now then done + [rest[0]] else done) + Later(rest[1..], now)
  {
  }

  lemma {:induction false} Woken(s: Sched, rest: seq<Sleeper>, now: nat)
    requires rest != []
    ensures ReadyAll(s, Due(rest, now)) ==
            ReadyAll(if rest[0].wake > now then s else DoReady(s, rest[0].t), Due(rest[1..], now))
  {
    if rest[0].wake <= now {
      assert Due(rest, now)[1..] == Due(rest[1..], now);
    }
  }

  function Due(q: seq<Sleeper>, now: nat): seq<nat> {
    if q == [] then [] else if q[0].wake > now then Due(q[1..], now) else [q[0].t] + Due(q[1..], now)
  }

  function ReadyAll(s: Sched, ts: seq<nat>): Sched
    decreases |ts|
  {
    if ts == [] then s else ReadyAll(DoReady(s, ts[0]), ts[1..])
  }

  /** Tasks made ready one after the other are all ready, behind those that
      were. */
  lemma {:induction false} AllReady(s: Sched, ts: seq<nat>)
    requires Inv(s) && forall t | t in ts :: t in s.prio
    ensures var s' := ReadyAll(s, ts);
            && Inv(s') && s'.prio == s.prio && (forall t :: R.IsReady(s', t) <==> R.IsReady(s, t) || t in ts)
            && forall p: nat :: QueueAt(s, p) <= QueueAt(s', p)
    decreases |ts|
  {
    if ts != [] {
      var s1 := DoReady(s, ts[0]);
      R.StepEffect(s, Ready(ts[0]));
      assert ts == [ts[0]] + ts[1..];
      AllReady(s1, ts[1..]);
      forall t ensures R.IsReady(s1, t) <==> R.IsReady(s, t) || t == ts[0] {
        R.ReadyExactly(s, Ready(ts[0]), t);
      }
      forall p: nat ensures QueueAt(s, p) <= QueueAt(ReadyAll(s, ts), p) {
        assert QueueAt(s, p) <= QueueAt(s1, p) <= QueueAt(ReadyAll(s1, ts[1..]), p);
      }
    }
  }

  lemma {:induction false} DueIs(q: seq<Sleeper>, now: nat)
    ensures forall t :: t in Due(q, now) <==> IsDue(q, now, t)
  {
    if q != [] {
      var tail := q[1..];
      assert q == [q[0]] + tail;
      DueIs(tail, now);
      forall t ensures IsDue(q, now, t) <==> IsDue(tail, now, t) || (q[0].wake <= now && q[0].t == t) {
        if x :| x in q && x.wake <= now && x.t == t {
          assert x == q[0] || x in tail;
        }
      }
    }
  }

  /** Task `t` sleeps and should be woken. */
  ghost predicate IsDue(q: seq<Sleeper>, now: nat, t: nat) {
    exists x :: x in q && x.wake <= now && x.t == t
  }

  lemma {:induction false} DueReady(s: Sched, q: seq<Sleeper>, now: nat)
    requires Inv(s) && forall x | x in q :: x.t in s.prio
    ensures var s' := ReadyAll(s, Due(q, now));
            && (forall t :: R.IsReady(s', t) <==> R.IsReady(s, t) || IsDue(q, now, t))
            && forall p: nat :: QueueAt(s, p) <= QueueAt(s', p)
  {
    DueIs(q, now);
    forall t | t in Due(q, now) ensures t in s.prio {
      var x :| x in q && x.wake <= now && x.t == t;
    }
    AllReady(s, Due(q, now));
  }

  lemma {:induction false} LockGone(s: Sched, s1: Sched)
    requires Inv(s) && Enabled(s, BlockLocked) && !s.resched && s1 == Remove(s, s.active).(preempt := 0)
    ensures Queues(s1) && (forall p | 0 <= p < s1.highest :: QueueAt(s1, p) == []) &&
            s1 == DoEnable(Remove(s, s.active))
  {
    LeavesQueue(s);
    var r := Remove(s, s.active);
    SameQueues(r, s1);
    forall p | 0 <= p < s1.highest ensures QueueAt(s1, p) == [] {
      assert QueueAt(r, p) == [];
    }
  }
}
