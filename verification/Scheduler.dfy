/** The priority scheduler: ready queues, delayed preemption, and the steps
    that change which task is active. Each section with interrupts off is one
    step. */
module Scheduler {
  import opened Common

  const HIGH := 0
  const IDLE := 3
  const PRIORITY_COUNT := 4

  /** The active task stays in its ready queue. `prio` holds the tasks there
      are, `idle` is the one that never blocks. */
  datatype Sched = Sched(prio: map<nat, nat>, idle: nat, queues: seq<seq<nat>>, highest: nat,
                         active: nat, preempt: nat, resched: bool)

  datatype Action =
    | Admit(t: nat, p: nat)      // scheduler_admit of a new task
    | Ready(t: nat)              // scheduler_ready_task
    | Rotate                     // scheduler_rotate
    | Disable                    // scheduler_disable_preempt
    | Enable                     // scheduler_enable_preempt
    | Block                      // scheduler_block_on, scheduler_sleep
    | BlockLocked                // scheduler_block_on_locked, up to its first switch
    | Exit(wake: Option<nat>)    // scheduler_exit, waking the parent if it waits
    | Destroy(t: nat)            // task_destroy of another task

  // -------------------------------------------------------------------------- ready queues

  function PrioOf(s: Sched, t: nat): nat {
    if t in s.prio then s.prio[t] else IDLE
  }

  function QueueAt(s: Sched, p: nat): seq<nat> {
    if p < |s.queues| then s.queues[p] else []
  }

  function SetQueue(s: Sched, p: nat, q: seq<nat>): Sched {
    if p < |s.queues| then s.(queues := s.queues[p := q]) else s
  }

  /** A node that is in a list already is not pushed again. */
  function Enqueue(s: Sched, t: nat): Sched {
    var p := PrioOf(s, t);
    if t in QueueAt(s, p) then s else SetQueue(s, p, QueueAt(s, p) + [t])
  }

  function Remove(s: Sched, t: nat): Sched {
    SetQueue(s, PrioOf(s, t), Without(QueueAt(s, PrioOf(s, t)), t))
  }

  function Rotated(q: seq<nat>): seq<nat> {
    if |q| <= 1 then q else q[1..] + [q[0]]
  }

  function HeadOr(q: seq<nat>, t: nat): nat {
    if q == [] then t else q[0]
  }

  // -------------------------------------------------------------------------------- steps

  function UpdateHighest(s: Sched, t: nat): Sched {
    if PrioOf(s, t) < s.highest then s.(highest := PrioOf(s, t)) else s
  }

  function CheckPreempt(s: Sched, t: nat): Sched {
    if PrioOf(s, t) < PrioOf(s, s.active)
    then (if s.preempt > 0 then s.(resched := true) else s.(active := t))
    else s
  }

  function DoAdmit(s: Sched, t: nat, p: nat): Sched {
    CheckPreempt(UpdateHighest(Enqueue(s.(prio := s.prio[t := p]), t), t), t)
  }

  function DoReady(s: Sched, t: nat): Sched {
    CheckPreempt(Enqueue(UpdateHighest(s, t), t), t)
  }

  function DoRotate(s: Sched): Sched {
    if s.preempt > 0 then s
    else
      var q := Rotated(QueueAt(s, s.highest));
      SetQueue(s, s.highest, q).(active := HeadOr(q, s.active))
  }

  function DoEnable(s: Sched): Sched {
    var s1 := s.(preempt := if s.preempt > 0 then s.preempt - 1 else 0);
    if s1.preempt == 0 && s1.resched then DoRotate(s1.(resched := false)) else s1
  }

  /** The first non-empty queue from priority `p` on. */
  function FirstFrom(s: Sched, p: nat): nat
    decreases PRIORITY_COUNT - p
  {
    if p >= PRIORITY_COUNT then s.highest else if QueueAt(s, p) != [] then p else FirstFrom(s, p + 1)
  }

  function Refresh(s: Sched): Sched {
    if QueueAt(s, s.highest) != [] then s else s.(highest := FirstFrom(s, s.highest + 1))
  }

  function SwitchOut(s: Sched): Sched {
    var s1 := Refresh(s);
    s1.(active := HeadOr(QueueAt(s1, s1.highest), s1.active))
  }

  function DoBlock(s: Sched): Sched {
    SwitchOut(Remove(s, s.active))
  }

  /** The lock is given back after the task has left its ready queue: a delayed
      preemption is taken then, and the switch below it only happens when
      the task runs again. */
  function DoBlockLocked(s: Sched): Sched {
    var s1 := DoEnable(Remove(s, s.active));
    if s.resched then s1 else SwitchOut(s1)
  }

  /** If waking the parent switches to it, the exiting task never comes back. */
  function DoExit(s: Sched, wake: Option<nat>): Sched {
    var s1 := Remove(s, s.active);
    var s2 := if wake.Some? then DoReady(s1, wake.value) else s1;
    if s2.active != s.active then s2 else SwitchOut(s2)
  }

  function DoDestroy(s: Sched, t: nat): Sched {
    var s1 := Remove(s, t);
    s1.(prio := s1.prio - {t})
  }

  predicate Enabled(s: Sched, act: Action) {
    match act
    case Admit(t, p) => t !in s.prio && p < PRIORITY_COUNT
    case Ready(t) => t in s.prio
    case Rotate => true
    case Disable => true
    case Enable => s.preempt > 0
    case Block => s.preempt == 0 && s.active != s.idle
    case BlockLocked => s.preempt == 1 && s.active != s.idle
    case Exit(wake) => s.preempt == 0 && s.active != s.idle &&
                       (wake.Some? ==> wake.value in s.prio && wake.value != s.active)
    case Destroy(t) => s.preempt == 0 && t in s.prio && t != s.active && t != s.idle
  }

  function Step(s: Sched, act: Action): Sched {
    match act
    case Admit(t, p) => DoAdmit(s, t, p)
    case Ready(t) => DoReady(s, t)
    case Rotate => DoRotate(s)
    case Disable => s.(preempt := s.preempt + 1)
    case Enable => DoEnable(s)
    case Block => DoBlock(s)
    case BlockLocked => DoBlockLocked(s)
    case Exit(wake) => DoExit(s, wake)
    case Destroy(t) => DoDestroy(s, t)
  }

  // ---------------------------------------------------------------------------- invariant

  ghost predicate NoDup(q: seq<nat>) {
    forall i, j | 0 <= i < j < |q| :: q[i] != q[j]
  }

  /** A ready queue holds each of its tasks once, all of its priority. */
  ghost predicate QueueOk(s: Sched, p: nat) {
    NoDup(QueueAt(s, p)) && forall t | t in QueueAt(s, p) :: HasPrio(s, t, p)
  }

  predicate HasPrio(s: Sched, t: nat, p: nat) {
    t in s.prio && s.prio[t] == p
  }

  ghost predicate Queues(s: Sched) {
    && |s.queues| == PRIORITY_COUNT && (forall p | 0 <= p < PRIORITY_COUNT :: QueueOk(s, p))
    && (forall t | t in s.prio :: s.prio[t] < PRIORITY_COUNT)
    && s.idle in QueueAt(s, IDLE) && s.highest < PRIORITY_COUNT
  }

  /** `highest` is the best non-empty priority. */
  ghost predicate Tracks(s: Sched) {
    QueueAt(s, s.highest) != [] && forall p | 0 <= p < s.highest :: QueueAt(s, p) == []
  }

  /** The active task is the head of the best non-empty queue; with preemption
      off it may instead be the head of a worse one, and then a switch is
      pending. */
  ghost predicate Running(s: Sched) {
    && s.active in s.prio && QueueAt(s, s.prio[s.active]) != [] && QueueAt(s, s.prio[s.active])[0] == s.active
    && (s.resched ==> s.preempt > 0 && s.highest < s.prio[s.active])
    && (!s.resched ==> s.highest == s.prio[s.active])
  }

  ghost predicate Inv(s: Sched) {
    Queues(s) && Tracks(s) && Running(s)
  }

  // ----------------------------------------------------------------- list operations

  lemma {:induction false} WithoutOk(q: seq<nat>, t: nat)
    requires NoDup(q)
    ensures NoDup(Without(q, t)) && forall x :: x in Without(q, t) <==> x in q && x != t
  {
    if q != [] {
      assert NoDup(q[1..]) by {
        assert forall i | 0 <= i < |q| - 1 :: q[1..][i] == q[i + 1];
      }
      WithoutOk(q[1..], t);
      assert q == [q[0]] + q[1..];
      assert q[0] !in q[1..];
      if q[0] != t {
        var rest := Without(q[1..], t);
        assert q[0] !in rest;
        assert forall i | 1 <= i < |Without(q, t)| :: Without(q, t)[i] == rest[i - 1];
      }
    }
  }

  lemma {:induction false} AppendOk(q: seq<nat>, t: nat)
    requires NoDup(q) && t !in q
    ensures NoDup(q + [t])
  {
  }

  lemma {:induction false} RotatedOk(q: seq<nat>)
    requires NoDup(q)
    ensures NoDup(Rotated(q)) && |Rotated(q)| == |q| && forall x :: x in Rotated(q) <==> x in q
  {
    if |q| > 1 {
      assert q == [q[0]] + q[1..];
      assert forall i | 0 <= i < |q| - 1 :: Rotated(q)[i] == q[i + 1];
    }
  }

  // ------------------------------------------------------------- the queues stay well formed

  lemma {:induction false} SetQueueOk(s: Sched, p: nat, q: seq<nat>)
    requires Queues(s) && p < PRIORITY_COUNT && NoDup(q) && (forall t | t in q :: HasPrio(s, t, p))
    requires p == IDLE ==> s.idle in q
    ensures Queues(SetQueue(s, p, q))
  {
    var s' := SetQueue(s, p, q);
    forall x | 0 <= x < PRIORITY_COUNT ensures QueueOk(s', x) {
      assert QueueOk(s, x);
    }
  }

  lemma {:induction false} EnqueueOk(s: Sched, t: nat)
    requires Queues(s) && t in s.prio
    ensures Queues(Enqueue(s, t)) && t in QueueAt(Enqueue(s, t), s.prio[t])
  {
    var p := s.prio[t];
    assert QueueOk(s, p);
    if t !in QueueAt(s, p) {
      AppendOk(QueueAt(s, p), t);
      SetQueueOk(s, p, QueueAt(s, p) + [t]);
    }
  }

  lemma {:induction false} RemoveOk(s: Sched, t: nat)
    requires Queues(s) && t in s.prio && t != s.idle
    ensures Queues(Remove(s, t)) && t !in QueueAt(Remove(s, t), s.prio[t])
  {
    var p := s.prio[t];
    assert QueueOk(s, p);
    WithoutOk(QueueAt(s, p), t);
    SetQueueOk(s, p, Without(QueueAt(s, p), t));
  }

  /** The priorities in use. */
  lemma {:induction false} PrioInRange(s: Sched, t: nat, p: nat)
    requires Queues(s) && t in QueueAt(s, p)
    ensures p < PRIORITY_COUNT && HasPrio(s, t, p)
  {
    assert QueueOk(s, p);
  }

  // ------------------------------------------------------------ the steps keep the invariant

  /** `s` with task `t` just put into its ready queue, and not compared with
      the active one yet. */
  ghost predicate Arrived(s: Sched, t: nat) {
    && Queues(s) && Tracks(s) && t in s.prio && s.active in s.prio
    && QueueAt(s, s.prio[s.active]) != [] && QueueAt(s, s.prio[s.active])[0] == s.active
    && s.highest <= s.prio[t]
    && (s.resched ==> s.preempt > 0 && s.highest < s.prio[s.active])
    && (!s.resched ==>
          || s.highest == s.prio[s.active]
          || (s.prio[t] == s.highest < s.prio[s.active] && QueueAt(s, s.highest) == [t]))
  }

  lemma {:induction false} CheckKeeps(s: Sched, t: nat)
    requires Arrived(s, t)
    ensures Inv(CheckPreempt(s, t))
  {
    var s' := CheckPreempt(s, t);
    SameQueues(s, s');
    forall p | 0 <= p < s'.highest ensures QueueAt(s', p) == [] {
      assert QueueAt(s', p) == QueueAt(s, p);
    }
  }

  lemma {:induction false} Arrives(s: Sched, s': Sched, t: nat, p: nat)
    requires Inv(s) && Queues(s') && HasPrio(s', t, p) && p < PRIORITY_COUNT && s'.active == s.active
    requires s.active in s'.prio && s'.prio[s.active] == s.prio[s.active]
    requires s'.preempt == s.preempt && s'.resched == s.resched &&
             s'.highest == (if p < s.highest then p else s.highest)
    requires forall x | 0 <= x < PRIORITY_COUNT && x != p :: QueueAt(s', x) == QueueAt(s, x)
    requires QueueAt(s', p) == if t in QueueAt(s, p) then QueueAt(s, p) else QueueAt(s, p) + [t]
    ensures Arrived(s', t)
  {
    assert p < s.highest ==> QueueAt(s, p) == [];
    forall x | 0 <= x < s'.highest ensures QueueAt(s', x) == [] {
      assert QueueAt(s, x) == [];
    }
  }

  /** Making a task ready, whatever its priority. */
  lemma {:induction false} ReadyKeeps(s: Sched, t: nat)
    requires Inv(s) && t in s.prio
    ensures Inv(DoReady(s, t))
  {
    var s1 := UpdateHighest(s, t);
    SameQueues(s, s1);
    EnqueueOk(s1, t);
    Arrives(s, Enqueue(s1, t), t, s.prio[t]);
    CheckKeeps(Enqueue(s1, t), t);
  }

  lemma {:induction false} AdmitKeeps(s: Sched, t: nat, p: nat)
    requires Inv(s) && Enabled(s, Admit(t, p))
    ensures Inv(DoAdmit(s, t, p))
  {
    var s0 := s.(prio := s.prio[t := p]);
    NewTask(s, t, p);
    EnqueueOk(s0, t);
    var s1 := UpdateHighest(Enqueue(s0, t), t);
    SameQueues(Enqueue(s0, t), s1);
    Arrives(s, s1, t, p);
    CheckKeeps(s1, t);
  }

  lemma {:induction false} NewTask(s: Sched, t: nat, p: nat)
    requires Queues(s) && t !in s.prio && p < PRIORITY_COUNT
    ensures Queues(s.(prio := s.prio[t := p]))
  {
    var s0 := s.(prio := s.prio[t := p]);
    forall x | 0 <= x < PRIORITY_COUNT ensures QueueOk(s0, x) {
      assert QueueOk(s, x);
      forall y | y in QueueAt(s0, x) ensures HasPrio(s0, y, x) {
        assert HasPrio(s, y, x);
      }
    }
  }

  lemma {:induction false} RotateKeeps(s: Sched)
    requires Queues(s) && Tracks(s) && s.preempt == 0 && !s.resched
    ensures Inv(DoRotate(s))
  {
    var q := QueueAt(s, s.highest);
    assert QueueOk(s, s.highest);
    RotatedOk(q);
    SetQueueOk(s, s.highest, Rotated(q));
    assert Rotated(q)[0] in Rotated(q);
    assert HasPrio(s, Rotated(q)[0], s.highest);
    var s1 := SetQueue(s, s.highest, Rotated(q));
    SameTracks(s, s1);
    SameQueues(s1, DoRotate(s));
    SameTracks(s1, DoRotate(s));
  }

  lemma {:induction false} EnableKeeps(s: Sched)
    requires Inv(s) && s.preempt > 0
    ensures Inv(DoEnable(s))
  {
    if s.preempt == 1 && s.resched {
      var s1 := s.(preempt := 0, resched := false);
      SameQueues(s, s1);
      SameTracks(s, s1);
      RotateKeeps(s1);
    } else {
      SameQueues(s, DoEnable(s));
      SameTracks(s, DoEnable(s));
    }
  }

  lemma {:induction false} SameTracks(s: Sched, s': Sched)
    requires Tracks(s) && s'.highest == s.highest && |s'.queues| == |s.queues|
    requires QueueAt(s', s.highest) != [] && forall p | 0 <= p < s.highest :: QueueAt(s', p) == QueueAt(s, p)
    ensures Tracks(s')
  {
    forall p | 0 <= p < s.highest ensures QueueAt(s', p) == [] {
      assert QueueAt(s, p) == [];
    }
  }

  lemma {:induction false} SameQueues(s: Sched, s': Sched)
    requires Queues(s) && s'.prio == s.prio && s'.queues == s.queues && s'.idle == s.idle && s'.highest < PRIORITY_COUNT
    ensures Queues(s')
  {
    forall p | 0 <= p < PRIORITY_COUNT ensures QueueOk(s', p) {
      assert QueueOk(s, p);
      forall t | t in QueueAt(s', p) ensures HasPrio(s', t, p) {
        assert HasPrio(s, t, p);
      }
    }
  }

  lemma {:induction false} FirstFromOk(s: Sched, p: nat)
    requires Queues(s) && p <= IDLE
    ensures var f := FirstFrom(s, p);
            p <= f < PRIORITY_COUNT && QueueAt(s, f) != [] && forall x | p <= x < f :: QueueAt(s, x) == []
    decreases PRIORITY_COUNT - p
  {
    if QueueAt(s, p) == [] {
      FirstFromOk(s, p + 1);
    }
  }

  lemma {:induction false} RefreshTracks(s: Sched)
    requires Queues(s) && forall p | 0 <= p < s.highest :: QueueAt(s, p) == []
    ensures Queues(Refresh(s)) && Tracks(Refresh(s))
  {
    if QueueAt(s, s.highest) == [] {
      assert s.highest != IDLE;
      FirstFromOk(s, s.highest + 1);
    }
    var s1 := Refresh(s);
    SameQueues(s, s1);
    forall p | 0 <= p < s1.highest ensures QueueAt(s1, p) == [] {
      assert QueueAt(s, p) == [];
    }
  }

  /** A switch-out finds a task: the idle one is always ready. */
  lemma {:induction false} SwitchOutFinds(s: Sched)
    requires Queues(s) && s.preempt == 0 && !s.resched && forall p | 0 <= p < s.highest :: QueueAt(s, p) == []
    ensures QueueAt(Refresh(s), Refresh(s).highest) != [] && Inv(SwitchOut(s))
  {
    var s1, s2 := Refresh(s), SwitchOut(s);
    RefreshTracks(s);
    PrioInRange(s1, QueueAt(s1, s1.highest)[0], s1.highest);
    SameQueues(s1, s2);
    forall p | 0 <= p < s2.highest ensures QueueAt(s2, p) == [] {
      assert QueueAt(s1, p) == [];
    }
  }

  /** After the active task left its queue, everything better is still empty. */
  lemma {:induction false} LeavesQueue(s: Sched)
    requires Inv(s) && s.active != s.idle
    ensures var s1 := Remove(s, s.active);
            && Queues(s1) && s1.highest == s.highest && (forall p | 0 <= p < s.highest :: QueueAt(s1, p) == [])
            && (s.resched ==> QueueAt(s1, s.highest) == QueueAt(s, s.highest))
            && s.active !in QueueAt(s1, s.prio[s.active])
  {
    RemoveOk(s, s.active);
    var s1 := Remove(s, s.active);
    forall p | 0 <= p < s.highest ensures QueueAt(s1, p) == [] {
      assert QueueAt(s, p) == [];
    }
  }

  lemma {:induction false} BlockKeeps(s: Sched)
    requires Inv(s) && Enabled(s, Block)
    ensures Inv(DoBlock(s))
  {
    LeavesQueue(s);
    SwitchOutFinds(Remove(s, s.active));
  }

  lemma {:induction false} BlockLockedKeeps(s: Sched)
    requires Inv(s) && Enabled(s, BlockLocked)
    ensures Inv(DoBlockLocked(s))
  {
    LeavesQueue(s);
    var s1 := Remove(s, s.active);
    var s2 := s1.(preempt := 0, resched := false);
    SameQueues(s1, s2);
    forall p | 0 <= p < s2.highest ensures QueueAt(s2, p) == [] {
      assert QueueAt(s1, p) == [];
    }
    if s.resched {
      assert QueueAt(s2, s2.highest) == QueueAt(s1, s1.highest);
      RotateKeeps(s2);
    } else {
      SwitchOutFinds(s2);
    }
  }

  lemma {:induction false} DestroyKeeps(s: Sched, t: nat)
    requires Inv(s) && Enabled(s, Destroy(t))
    ensures Inv(DoDestroy(s, t))
  {
    RemoveOk(s, t);
    var s1, s2 := Remove(s, t), DoDestroy(s, t);
    GoneTask(s1, t);
    WithoutHead(QueueAt(s, s.prio[t]), t, s.active);
    forall p | 0 <= p < s.highest ensures QueueAt(s2, p) == [] {
      assert QueueAt(s, p) == [];
    }
  }

  lemma {:induction false} GoneTask(s: Sched, t: nat)
    requires Queues(s) && t in s.prio && t !in QueueAt(s, s.prio[t]) && t != s.idle
    ensures Queues(s.(prio := s.prio - {t}))
  {
    var s' := s.(prio := s.prio - {t});
    forall p | 0 <= p < PRIORITY_COUNT ensures QueueOk(s', p) {
      assert QueueOk(s, p);
      forall x | x in QueueAt(s', p) ensures HasPrio(s', x, p) {
        assert HasPrio(s, x, p);
      }
    }
  }

  /** Removing another task leaves the head of a queue. */
  lemma {:induction false} WithoutHead(q: seq<nat>, t: nat, h: nat)
    requires h != t
    ensures q != [] && q[0] == h ==> Without(q, t) != [] && Without(q, t)[0] == h
  {
  }

  /** Waking a task while the active one is in no queue any more. */
  lemma {:induction false} WakeLeaving(s: Sched, w: nat)
    requires Queues(s) && w in s.prio && w != s.active && s.active in s.prio && s.prio[s.active] == s.highest
    requires s.preempt == 0 && !s.resched && forall p | 0 <= p < s.highest :: QueueAt(s, p) == []
    ensures var s' := DoReady(s, w);
            if s.prio[w] < s.highest then Inv(s') && s'.active == w
            else s'.active == s.active && s'.highest == s.highest && Queues(s') && s'.preempt == 0 && !s'.resched &&
                 forall p | 0 <= p < s.highest :: QueueAt(s', p) == []
  {
    var s1 := UpdateHighest(s, w);
    SameQueues(s, s1);
    EnqueueOk(s1, w);
    var s2, s' := Enqueue(s1, w), DoReady(s, w);
    SameQueues(s2, s');
    forall p | 0 <= p < s'.highest ensures QueueAt(s', p) == [] {
      assert QueueAt(s, p) == [];
    }
    assert s.prio[w] < s.highest ==> QueueAt(s, s.prio[w]) == [];
  }

  lemma {:induction false} ExitKeeps(s: Sched, wake: Option<nat>)
    requires Inv(s) && Enabled(s, Exit(wake))
    ensures Inv(DoExit(s, wake))
  {
    LeavesQueue(s);
    var s1 := Remove(s, s.active);
    if wake.Some? {
      WakeLeaving(s1, wake.value);
      if s.prio[wake.value] >= s.highest {
        SwitchOutFinds(DoReady(s1, wake.value));
      }
    } else {
      SwitchOutFinds(s1);
    }
  }

  // ---------------------------------------------------------------------------------- runs

  lemma {:induction false} StepKeeps(s: Sched, act: Action)
    requires Inv(s) && Enabled(s, act)
    ensures Inv(Step(s, act))
  {
    match act
    case Admit(t, p) => AdmitKeeps(s, t, p);
    case Ready(t) => ReadyKeeps(s, t);
    case Rotate => RotateAnyKeeps(s);
    case Disable => DisableKeeps(s);
    case Enable => EnableKeeps(s);
    case Block => BlockKeeps(s);
    case BlockLocked => BlockLockedKeeps(s);
    case Exit(wake) => ExitKeeps(s, wake);
    case Destroy(t) => DestroyKeeps(s, t);
  }

  lemma {:induction false} RotateAnyKeeps(s: Sched)
    requires Inv(s)
    ensures Inv(DoRotate(s))
  {
    if s.preempt == 0 {
      RotateKeeps(s);
    }
  }

  lemma {:induction false} DisableKeeps(s: Sched)
    requires Inv(s)
    ensures Inv(s.(preempt := s.preempt + 1))
  {
    SameQueues(s, s.(preempt := s.preempt + 1));
    SameTracks(s, s.(preempt := s.preempt + 1));
  }

  ghost predicate Runnable(s: Sched, acts: seq<Action>)
    decreases |acts|
  {
    acts == [] || (Enabled(s, acts[0]) && Runnable(Step(s, acts[0]), acts[1..]))
  }

  function Run(s: Sched, acts: seq<Action>): Sched
    decreases |acts|
  {
    if acts == [] then s else Run(Step(s, acts[0]), acts[1..])
  }

  /** The state after init_idle: only the idle task, active. */
  function Initial(idle: nat): Sched {
    Sched(map[idle := IDLE], idle, [[], [], [], [idle]], IDLE, idle, 0, false)
  }

  lemma {:induction false} InitialInv(idle: nat)
    ensures Inv(Initial(idle))
  {
    var s := Initial(idle);
    forall p | 0 <= p < PRIORITY_COUNT ensures QueueOk(s, p) {}
  }

  /** Over every run, between steps, the active task heads the best non-empty
      queue, or preemption is off and a switch is pending. */
  lemma {:induction false} RunKeeps(s: Sched, acts: seq<Action>)
    requires Inv(s) && Runnable(s, acts)
    ensures Inv(Run(s, acts))
    decreases |acts|
  {
    if acts != [] {
      StepKeeps(s, acts[0]);
      RunKeeps(Step(s, acts[0]), acts[1..]);
    }
  }

  /** From the first idle task on, whatever happened: with preemption on, the
      active task heads its ready queue and no ready task has a better
      priority; with preemption off, that holds or a switch is pending. */
  lemma {:induction false} ActiveIsBest(idle: nat, acts: seq<Action>)
    requires Runnable(Initial(idle), acts)
    ensures var s := Run(Initial(idle), acts);
            && s.active in s.prio && QueueAt(s, s.prio[s.active]) != [] && QueueAt(s, s.prio[s.active])[0] == s.active
            && (s.preempt == 0 || !s.resched ==>
                  forall t, p | 0 <= p < PRIORITY_COUNT && t in QueueAt(s, p) :: s.prio[s.active] <= p)
  {
    InitialInv(idle);
    RunKeeps(Initial(idle), acts);
  }

  /** The switch-out a task finishes when it comes back from
      scheduler_block_on_locked changes nothing. */
  lemma {:induction false} LateSwitchOut(s: Sched)
    requires Inv(s) && s.preempt == 0
    ensures SwitchOut(s) == s
  {
  }
}
