/** How long a ready task waits, and what preemption does to its place. */
module Fairness {
  import opened Common
  import opened Scheduler

  function IndexOf(q: seq<nat>, t: nat): nat {
    if q == [] || q[0] == t then 0 else 1 + IndexOf(q[1..], t)
  }

  lemma {:induction false} IndexIs(q: seq<nat>, t: nat)
    requires t in q
    ensures IndexOf(q, t) < |q| && q[IndexOf(q, t)] == t
  {
    if q[0] != t {
      assert t in q[1..];
      IndexIs(q[1..], t);
    }
  }

  lemma {:induction false} IndexAppend(q: seq<nat>, r: seq<nat>, t: nat)
    requires t in q
    ensures IndexOf(q + r, t) == IndexOf(q, t)
  {
    if q[0] != t {
      assert (q + r)[1..] == q[1..] + r;
      assert t in q[1..];
      IndexAppend(q[1..], r, t);
    }
  }

  lemma {:induction false} IndexWithout(q: seq<nat>, x: nat, t: nat)
    requires t in q && x != t && NoDup(q)
    ensures t in Without(q, x) && IndexOf(Without(q, x), t) <= IndexOf(q, t)
    ensures q[0] == x ==> IndexOf(Without(q, x), t) == IndexOf(q, t) - 1
  {
    WithoutOk(q, x);
    if q[0] != x && q[0] != t {
      assert t in q[1..];
      assert NoDup(q[1..]) by {
        assert forall i | 0 <= i < |q| - 1 :: q[1..][i] == q[i + 1];
      }
      IndexWithout(q[1..], x, t);
      assert Without(q, x)[1..] == Without(q[1..], x);
    }
  }

  lemma {:induction false} IndexRotated(q: seq<nat>, t: nat)
    requires t in q && NoDup(q)
    ensures t in Rotated(q)
    ensures IndexOf(Rotated(q), t) == if IndexOf(q, t) == 0 then |q| - 1 else IndexOf(q, t) - 1
  {
    RotatedOk(q);
    if |q| > 1 {
      if q[0] == t {
        IndexLast(q[1..], t);
      } else {
        assert t in q[1..];
        IndexAppend(q[1..], [q[0]], t);
      }
    }
  }

  lemma {:induction false} IndexLast(q: seq<nat>, t: nat)
    requires t !in q
    ensures IndexOf(q + [t], t) == |q|
  {
    if q != [] {
      assert (q + [t])[1..] == q[1..] + [t];
      IndexLast(q[1..], t);
    }
  }

  // -------------------------------------------------------------------------- bounded wait

  /** The step rotates the top queue or switches its head out. */
  predicate Turn(s: Sched, act: Action) {
    match act
    case Rotate => s.preempt == 0
    case Block => true
    case BlockLocked => true
    case Exit(_) => true
    case _ => false
  }

  function Place(s: Sched, t: nat): nat {
    IndexOf(QueueAt(s, PrioOf(s, t)), t)
  }

  /** `t` is in the top queue, and no switch is pending. */
  ghost predicate InTop(s: Sched, t: nat) {
    Inv(s) && !s.resched && HasPrio(s, t, s.highest) && t in QueueAt(s, s.highest)
  }

  /** While its queue stays on top, no step moves a waiting task back, and
      every turn moves it ahead. */
  ghost predicate MovesAhead(s: Sched, s': Sched, t: nat, turn: bool) {
    && HasPrio(s', t, s.highest) && t in QueueAt(s', s.highest)
    && Place(s', t) <= Place(s, t) - (if turn then 1 else 0)
  }

  lemma {:induction false} Leaving(s: Sched, t: nat)
    requires InTop(s, t) && t != s.active
    ensures MovesAhead(s, Remove(s, s.active), t, true)
  {
    assert QueueOk(s, s.highest);
    IndexWithout(QueueAt(s, s.highest), s.active, t);
  }

  lemma {:induction false} Entering(s: Sched, s': Sched, t: nat, x: nat)
    requires HasPrio(s, t, s.highest) && t in QueueAt(s, s.highest) && HasPrio(s', t, s.highest)
    requires QueueAt(s', s.highest) == QueueAt(s, s.highest) || QueueAt(s', s.highest) == QueueAt(s, s.highest) + [x]
    ensures MovesAhead(s, s', t, false)
  {
    IndexAppend(QueueAt(s, s.highest), [x], t);
  }

  lemma {:induction false} Ahead(s: Sched, s1: Sched, s2: Sched, t: nat, turn: bool)
    requires MovesAhead(s, s1, t, turn) && s1.highest == s.highest && MovesAhead(s1, s2, t, false)
    ensures MovesAhead(s, s2, t, turn)
  {
  }

  lemma {:induction false} WaitArrival(s: Sched, act: Action, t: nat)
    requires InTop(s, t) && t != s.active && Enabled(s, act) && (act.Admit? || act.Ready?)
    requires Step(s, act).highest == s.highest
    ensures MovesAhead(s, Step(s, act), t, false) && !Step(s, act).resched
  {
    Entering(s, Step(s, act), t, act.t);
  }

  lemma {:induction false} WaitSwitchOut(s: Sched, s1: Sched, t: nat)
    requires HasPrio(s1, t, s.highest) && t in QueueAt(s1, s.highest) && s1.highest == s.highest
    ensures MovesAhead(s1, SwitchOut(s1), t, false)
  {
  }

  lemma {:induction false} WaitExit(s: Sched, wake: Option<nat>, t: nat)
    requires InTop(s, t) && t != s.active && Enabled(s, Exit(wake)) && DoExit(s, wake).highest == s.highest
    ensures MovesAhead(s, DoExit(s, wake), t, true) && !DoExit(s, wake).resched
  {
    Leaving(s, t);
    LeavesQueue(s);
    var s1 := Remove(s, s.active);
    if wake.Some? {
      WakeLeaving(s1, wake.value);
      var s2 := DoReady(s1, wake.value);
      assert s1.prio[wake.value] >= s.highest;
      Entering(s1, s2, t, wake.value);
      Ahead(s, s1, s2, t, true);
      WaitSwitchOut(s, s2, t);
      Ahead(s, s2, SwitchOut(s2), t, true);
    } else {
      WaitSwitchOut(s, s1, t);
    }
  }

  lemma {:induction false} WaitBlock(s: Sched, act: Action, t: nat)
    requires InTop(s, t) && t != s.active && Enabled(s, act) && (act == Block || act == BlockLocked)
    ensures MovesAhead(s, Step(s, act), t, true) && !Step(s, act).resched
  {
    Leaving(s, t);
    LeavesQueue(s);
    var s1 := Remove(s, s.active);
    var s2 := if act == Block then s1 else DoEnable(s1);
    assert MovesAhead(s, s2, t, true);
    WaitSwitchOut(s, s2, t);
  }

  lemma {:induction false} WaitStep(s: Sched, act: Action, t: nat)
    requires InTop(s, t) && t != s.active && Enabled(s, act) && act != Destroy(t)
    requires Step(s, act).highest == s.highest
    ensures InTop(Step(s, act), t) && Place(Step(s, act), t) <= Place(s, t) - (if Turn(s, act) then 1 else 0)
  {
    StepKeeps(s, act);
    assert QueueOk(s, s.highest);
    match act
    case Admit(_, _) => WaitArrival(s, act, t);
    case Ready(_) => WaitArrival(s, act, t);
    case Rotate => IndexRotated(QueueAt(s, s.highest), t);
    case Disable =>
    case Enable =>
    case Block => WaitBlock(s, act, t);
    case BlockLocked => WaitBlock(s, act, t);
    case Exit(wake) => WaitExit(s, wake, t);
    case Destroy(x) => WaitDestroy(s, x, t);
  }

  lemma {:induction false} WaitDestroy(s: Sched, x: nat, t: nat)
    requires InTop(s, t) && Enabled(s, Destroy(x)) && x != t
    ensures MovesAhead(s, DoDestroy(s, x), t, false)
  {
    assert QueueOk(s, s.highest);
    if s.prio[x] == s.highest {
      IndexWithout(QueueAt(s, s.highest), x, t);
    }
  }

  /** Through the whole run the queue of `t` stays on top, `t` is not destroyed,
      and `t` never becomes active. */
  ghost predicate Waits(s: Sched, acts: seq<Action>, t: nat)
    decreases |acts|
  {
    && s.active != t && s.highest == PrioOf(s, t)
    && (acts != [] ==> Enabled(s, acts[0]) && acts[0] != Destroy(t) && Waits(Step(s, acts[0]), acts[1..], t))
  }

  function Turns(s: Sched, acts: seq<Action>): nat
    decreases |acts|
  {
    if acts == [] then 0 else (if Turn(s, acts[0]) then 1 else 0) + Turns(Step(s, acts[0]), acts[1..])
  }

  /** Bounded wait: a task at place i of the top queue is active after at most
      i turns of that queue, whatever tasks of equal or lower priority arrive. */
  lemma {:induction false} BoundedWait(s: Sched, acts: seq<Action>, t: nat)
    requires InTop(s, t) && Waits(s, acts, t)
    ensures Turns(s, acts) < Place(s, t)
    decreases |acts|
  {
    if acts == [] {
      assert QueueAt(s, s.highest)[0] == s.active;
    } else {
      WaitsNext(s, acts, t);
      BoundedWait(Step(s, acts[0]), acts[1..], t);
    }
  }

  lemma {:induction false} WaitsNext(s: Sched, acts: seq<Action>, t: nat)
    requires InTop(s, t) && Waits(s, acts, t) && acts != []
    ensures InTop(Step(s, acts[0]), t) && Waits(Step(s, acts[0]), acts[1..], t)
    ensures Place(Step(s, acts[0]), t) <= Place(s, t) - (if Turn(s, acts[0]) then 1 else 0)
  {
    SamePrio(s, acts[0], t);
    WaitStep(s, acts[0], t);
  }

  lemma {:induction false} SamePrio(s: Sched, act: Action, t: nat)
    requires t in s.prio && Enabled(s, act) && act != Destroy(t) && t != s.active
    ensures PrioOf(Step(s, act), t) == s.prio[t]
  {
    match act
    case Admit(x, p) => assert DoAdmit(s, x, p).prio == s.prio[x := p];
    case Exit(wake) => ExitPrio(s, wake);
    case Destroy(x) => assert DoDestroy(s, x).prio == s.prio - {x};
    case Ready(x) => ReadyPrio(s, x);
    case Block => LeavePrio(s);
    case BlockLocked => LeavePrio(s);
    case Enable => EnablePrio(s);
    case Rotate => EnablePrio(s);
    case Disable =>
  }

  lemma {:induction false} ReadyPrio(s: Sched, x: nat)
    ensures DoReady(s, x).prio == s.prio
  {
  }

  lemma {:induction false} EnablePrio(s: Sched)
    ensures DoRotate(s).prio == s.prio && DoEnable(s).prio == s.prio
  {
  }

  lemma {:induction false} LeavePrio(s: Sched)
    ensures DoBlock(s).prio == s.prio && DoBlockLocked(s).prio == s.prio
  {
    EnablePrio(Remove(s, s.active));
  }

  lemma {:induction false} ExitPrio(s: Sched, wake: Option<nat>)
    ensures DoExit(s, wake).prio == s.prio
  {
    var s1 := Remove(s, s.active);
    assert s1.prio == s.prio;
    if wake.Some? {
      ReadyPrio(s1, wake.value);
    }
  }

  // --------------------------------------------------------------- a pending switch

  /** When a delayed preemption is taken, the top queue is rotated: its head
      goes to the back, and the task behind it runs. */
  lemma {:induction false} PendingTurn(s: Sched, t: nat)
    requires Inv(s) && s.resched && s.preempt == 1 && HasPrio(s, t, s.highest) && t in QueueAt(s, s.highest)
    ensures var s' := DoEnable(s);
            && Place(s', t) == (if Place(s, t) == 0 then |QueueAt(s, s.highest)| - 1 else Place(s, t) - 1)
            && (s'.active == t <==> Place(s', t) == 0)
  {
    assert QueueOk(s, s.highest);
    var q := QueueAt(s, s.highest);
    IndexRotated(q, t);
    IndexIs(Rotated(q), t);
  }

  /** So the bound fails for the head of the top queue while a switch is
      pending, exactly when it is not alone there. */
  lemma {:induction false} PendingHead(s: Sched)
    requires Inv(s) && s.resched && s.preempt == 1
    ensures var t := QueueAt(s, s.highest)[0];
            DoEnable(s).active == t <==> |QueueAt(s, s.highest)| == 1
  {
    var t := QueueAt(s, s.highest)[0];
    PrioInRange(s, t, s.highest);
    PendingTurn(s, t);
  }

  const TWO_PENDING :=
    Sched(map[0 := IDLE, 1 := 1, 2 := HIGH, 3 := HIGH], 0, [[2, 3], [1], [], [0]], HIGH, 1, 1, true)

  /** A run that gets there: two tasks of the best priority arrive while the
      active one has preemption off, and the first of them is passed over. */
  lemma {:induction false} PendingHeadExample()
    ensures var acts := [Admit(1, 1), Disable, Admit(2, HIGH), Admit(3, HIGH)];
            && Runnable(Initial(0), acts)
            && var s := Run(Initial(0), acts);
            && s.resched && s.preempt == 1 && QueueAt(s, s.highest) == [2, 3]
            && DoEnable(s).active == 3 && QueueAt(DoEnable(s), HIGH) == [3, 2]
  {
    TwoPending();
    PassedOver();
  }

  lemma {:induction false} PassedOver()
    ensures DoEnable(TWO_PENDING).active == 3 && QueueAt(DoEnable(TWO_PENDING), HIGH) == [3, 2]
  {
    assert Rotated([2, 3]) == [3, 2];
  }

  lemma {:induction false} TwoPending()
    ensures var acts := [Admit(1, 1), Disable, Admit(2, HIGH), Admit(3, HIGH)];
            Runnable(Initial(0), acts) && Run(Initial(0), acts) == TWO_PENDING
  {
    var acts := [Admit(1, 1), Disable, Admit(2, HIGH), Admit(3, HIGH)];
    var s1 := Sched(map[0 := IDLE, 1 := 1], 0, [[], [1], [], [0]], 1, 1, 0, false);
    var s3 := Sched(map[0 := IDLE, 1 := 1, 2 := HIGH], 0, [[2], [1], [], [0]], HIGH, 1, 1, true);
    Admitted(Initial(0), 1, 1, s1);
    Admitted(s1.(preempt := 1), 2, HIGH, s3);
    Admitted(s3, 3, HIGH, TWO_PENDING);
    FourSteps(Initial(0), s1, s1.(preempt := 1), s3, TWO_PENDING, acts);
  }

  /** `s'` is `s` after a new task arrived. */
  lemma {:induction false} Admitted(s: Sched, t: nat, p: nat, s': Sched)
    requires t !in s.prio && p < PRIORITY_COUNT == |s.queues| && t !in s.queues[p] && s.active in s.prio
    requires s' == Sched(s.prio[t := p], s.idle, s'.queues, if p < s.highest then p else s.highest,
                         if p < s.prio[s.active] && s.preempt == 0 then t else s.active, s.preempt,
                         s.resched || (p < s.prio[s.active] && s.preempt > 0))
    requires |s'.queues| == |s.queues| && s'.queues[p] == s.queues[p] + [t]
    requires forall x | 0 <= x < |s.queues| && x != p :: s'.queues[x] == s.queues[x]
    ensures DoAdmit(s, t, p) == s'
  {
    assert s.queues[p := s.queues[p] + [t]] == s'.queues;
  }

  lemma {:induction false} FourSteps(s0: Sched, s1: Sched, s2: Sched, s3: Sched, s4: Sched, acts: seq<Action>)
    requires |acts| == 4 && Enabled(s0, acts[0]) && Enabled(s1, acts[1]) && Enabled(s2, acts[2]) && Enabled(s3, acts[3])
    requires s1 == Step(s0, acts[0]) && s2 == Step(s1, acts[1]) && s3 == Step(s2, acts[2]) && s4 == Step(s3, acts[3])
    ensures Runnable(s0, acts) && Run(s0, acts) == s4
  {
    assert acts[1..][1..] == acts[2..] && acts[2..][1..] == acts[3..] && acts[3..][1..] == [];
    assert Runnable(s3, acts[3..]) && Run(s3, acts[3..]) == s4;
    assert Runnable(s2, acts[2..]) && Run(s2, acts[2..]) == s4;
    assert Runnable(s1, acts[1..]) && Run(s1, acts[1..]) == s4;
  }

  // ------------------------------------------------------------------- a preempted head

  predicate Heads(s: Sched, p: nat, h: nat) {
    QueueAt(s, p) != [] && QueueAt(s, p)[0] == h
  }

  lemma {:induction false} EnqueueHead(s: Sched, t: nat, p: nat, h: nat)
    requires Heads(s, p, h)
    ensures Heads(Enqueue(s, t), p, h)
  {
  }

  lemma {:induction false} RemoveHead(s: Sched, x: nat, p: nat, h: nat)
    requires Heads(s, p, h) && x != h
    ensures Heads(Remove(s, x), p, h)
  {
    WithoutHead(QueueAt(s, p), x, h);
  }

  lemma {:induction false} ReadyHead(s: Sched, t: nat, p: nat, h: nat)
    requires Heads(s, p, h)
    ensures Heads(DoReady(s, t), p, h)
  {
    EnqueueHead(UpdateHighest(s, t), t, p, h);
  }

  lemma {:induction false} EnableHead(s: Sched, p: nat, h: nat)
    requires Heads(s, p, h) && s.highest != p
    ensures Heads(DoEnable(s), p, h)
  {
  }

  /** While better queues are served, the head of a queue stays its head. */
  lemma {:induction false} HeadStays(s: Sched, act: Action, p: nat, h: nat)
    requires Inv(s) && Enabled(s, act) && act != Destroy(h) && s.active != h && s.highest < p && Heads(s, p, h)
    ensures Heads(Step(s, act), p, h)
  {
    match act
    case Admit(t, q) => EnqueueHead(s.(prio := s.prio[t := q]), t, p, h);
    case Ready(t) => ReadyHead(s, t, p, h);
    case Rotate =>
    case Disable =>
    case Enable => EnableHead(s, p, h);
    case Block => RemoveHead(s, s.active, p, h);
    case BlockLocked =>
      RemoveHead(s, s.active, p, h);
      EnableHead(Remove(s, s.active), p, h);
    case Exit(wake) => ExitHead(s, wake, p, h);
    case Destroy(x) => RemoveHead(s, x, p, h);
  }

  lemma {:induction false} ExitHead(s: Sched, wake: Option<nat>, p: nat, h: nat)
    requires Inv(s) && Enabled(s, Exit(wake)) && s.active != h && s.highest < p && Heads(s, p, h)
    ensures Heads(Step(s, Exit(wake)), p, h)
  {
    RemoveHead(s, s.active, p, h);
    if wake.Some? {
      ReadyHead(Remove(s, s.active), wake.value, p, h);
    }
  }

  ghost predicate Preempted(s: Sched, acts: seq<Action>, p: nat, h: nat)
    decreases |acts|
  {
    acts != [] ==>
      && s.highest < p && s.active != h && Enabled(s, acts[0]) && acts[0] != Destroy(h)
      && Preempted(Step(s, acts[0]), acts[1..], p, h)
  }

  /** A preempted task is still the head of its queue when that queue is served
      again. */
  lemma {:induction false} PreemptedKeepsPlace(s: Sched, acts: seq<Action>, p: nat, h: nat)
    requires Inv(s) && Preempted(s, acts, p, h) && Heads(s, p, h)
    ensures Heads(Run(s, acts), p, h)
    decreases |acts|
  {
    if acts != [] {
      HeadStays(s, acts[0], p, h);
      StepKeeps(s, acts[0]);
      PreemptedKeepsPlace(Step(s, acts[0]), acts[1..], p, h);
    }
  }
}
