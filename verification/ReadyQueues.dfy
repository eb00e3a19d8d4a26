/** What each step of the scheduler does to the ready queues and to the task
    that runs, said of the queues themselves. */
module ReadyQueues {
  import opened Common
  import opened Scheduler

  /** `t` is in the ready queue of its priority. */
  predicate IsReady(s: Sched, t: nat) {
    t in s.prio && t in QueueAt(s, s.prio[t])
  }

  /** The queues other than that of priority `p` are the same. */
  ghost predicate OnlyQueue(s: Sched, s': Sched, p: nat) {
    s'.idle == s.idle && forall x: nat | x != p :: QueueAt(s', x) == QueueAt(s, x)
  }

  /** `q'` is `q` with `t` at its end, unless it was in it already. */
  predicate Joined(q: seq<nat>, t: nat, q': seq<nat>) {
    q' == if t in q then q else q + [t]
  }

  /** `q'` is `q` without `t`, the others in their order. */
  ghost predicate Left(q: seq<nat>, t: nat, q': seq<nat>) {
    if t in q then exists k :: 0 <= k < |q| && q[k] == t && q' == q[..k] + q[k + 1..] else q' == q
  }

  /** The first of `q` has gone to its end. */
  predicate Turned(q: seq<nat>, q': seq<nat>) {
    q != [] && q' == q[1..] + [q[0]]
  }

  /** `t` preempts the active task if it is better: at once, or with preemption
      off as soon as it is on again. */
  predicate Preempts(s: Sched, s': Sched, t: nat) {
    var better := PrioOf(s', t) < PrioOf(s, s.active);
    && s'.active == (if better && s.preempt == 0 then t else s.active)
    && s'.resched == (s.resched || (better && s.preempt > 0)) && s'.preempt == s.preempt
  }

  /** The head of the best queue runs. */
  predicate RunsBest(s: Sched) {
    s.preempt == 0 && !s.resched && QueueAt(s, s.highest) != [] && s.active == QueueAt(s, s.highest)[0]
  }

  /** `w`, if it is a task, has joined its queue. */
  ghost predicate Woken(s: Sched, s': Sched, w: Option<nat>) {
    if w.None? then forall p: nat :: QueueAt(s', p) == QueueAt(s, p)
    else
      var p := PrioOf(s, w.value);
      OnlyQueue(s, s', p) && Joined(QueueAt(s, p), w.value, QueueAt(s', p))
  }

  /** The active task has left the ready queues. */
  ghost predicate Parts(s: Sched, s': Sched) {
    var p := PrioOf(s, s.active);
    OnlyQueue(s, s', p) && QueueAt(s, p) != [] && QueueAt(s', p) == QueueAt(s, p)[1..]
  }

  /** The effect of a step. */
  ghost predicate Effect(s: Sched, act: Action, s': Sched) {
    match act
    case Admit(t, p) =>
      && s'.prio == s.prio[t := p] && OnlyQueue(s, s', p) && QueueAt(s', p) == QueueAt(s, p) + [t] && Preempts(s, s', t)
    case Ready(t) => s'.prio == s.prio && s'.idle == s.idle && Woken(s, s', Some(t)) && Preempts(s, s', t)
    case Rotate => if s.preempt > 0 then s' == s else Rotates(s, s')
    case Disable => s' == s.(preempt := s.preempt + 1)
    case Enable =>
      if s.preempt == 1 && s.resched then Rotates(s, s')
      else s.preempt > 0 && s' == s.(preempt := s.preempt - 1)
    case Block => s'.prio == s.prio && Parts(s, s') && RunsBest(s')
    case BlockLocked =>
      && s'.prio == s.prio && RunsBest(s')
      && if s.resched then PartsAndRotates(s, s') else Parts(s, s')
    case Exit(wake) =>
      && s'.prio == s.prio && RunsBest(s') && exists s1 :: Parts(s, s1) && s1.prio == s.prio && Woken(s1, s', wake)
    case Destroy(t) =>
      && s'.prio == s.prio - {t} && OnlyQueue(s, s', PrioOf(s, t))
      && Left(QueueAt(s, PrioOf(s, t)), t, QueueAt(s', PrioOf(s, t)))
      && s'.active == s.active && s'.preempt == s.preempt && s'.resched == s.resched
  }

  /** The best queue is turned, and its new head runs. */
  ghost predicate Rotates(s: Sched, s': Sched) {
    && s'.prio == s.prio && OnlyQueue(s, s', s.highest) && Turned(QueueAt(s, s.highest), QueueAt(s', s.highest))
    && RunsBest(s')
  }

  /** With a switch pending, the active task is not in the best queue. */
  ghost predicate PartsAndRotates(s: Sched, s': Sched) {
    var p := PrioOf(s, s.active);
    && s'.idle == s.idle && p != s.highest && QueueAt(s, p) != [] && QueueAt(s', p) == QueueAt(s, p)[1..]
    && Turned(QueueAt(s, s.highest), QueueAt(s', s.highest))
    && forall x: nat | x != p && x != s.highest :: QueueAt(s', x) == QueueAt(s, x)
  }

  // ---------------------------------------------------------------------- the steps have it

  lemma {:induction false} WithoutLeft(q: seq<nat>, t: nat)
    ensures Left(q, t, Without(q, t))
  {
    if t in q {
      var k := WithoutCut(q, t);
    } else {
      WithoutNone(q, t);
    }
  }

  lemma {:induction false} WithoutNone(q: seq<nat>, t: nat)
    requires t !in q
    ensures Without(q, t) == q
  {
    if q != [] {
      assert q == [q[0]] + q[1..];
      WithoutNone(q[1..], t);
    }
  }

  lemma {:induction false} RotatedTurns(q: seq<nat>)
    requires q != []
    ensures Turned(q, Rotated(q))
  {
    assert |q| == 1 ==> q == [q[0]];
  }

  /** The active task is the head of its queue, so that queue loses its head. */
  lemma {:induction false} RemoveParts(s: Sched)
    requires Inv(s) && s.active != s.idle
    ensures Parts(s, Remove(s, s.active))
  {
  }

  lemma {:induction false} EnqueueWakes(s: Sched, t: nat)
    requires |s.queues| == PRIORITY_COUNT && t in s.prio && s.prio[t] < PRIORITY_COUNT
    ensures Woken(s, Enqueue(s, t), Some(t)) && t in QueueAt(Enqueue(s, t), s.prio[t])
    ensures Enqueue(s, t) == s.(queues := Enqueue(s, t).queues)
  {
  }

  lemma {:induction false} CheckPreempts(s: Sched, t: nat)
    ensures Preempts(s, CheckPreempt(s, t), t)
    ensures CheckPreempt(s, t) == s.(active := CheckPreempt(s, t).active, resched := CheckPreempt(s, t).resched)
  {
  }

  lemma {:induction false} ReadyWakes(s: Sched, t: nat)
    requires |s.queues| == PRIORITY_COUNT && t in s.prio && s.prio[t] < PRIORITY_COUNT
    ensures Woken(s, DoReady(s, t), Some(t)) && DoReady(s, t).prio == s.prio && DoReady(s, t).idle == s.idle
    ensures Preempts(s, DoReady(s, t), t) && t in QueueAt(DoReady(s, t), s.prio[t])
  {
    var s1 := UpdateHighest(s, t);
    EnqueueWakes(s1, t);
    CheckPreempts(Enqueue(s1, t), t);
    SameWoken(s, s1, Enqueue(s1, t), DoReady(s, t), t);
  }

  lemma {:induction false} SameWoken(s: Sched, s1: Sched, s2: Sched, s': Sched, t: nat)
    requires Woken(s1, s2, Some(t)) && s1.queues == s.queues && s1.prio == s.prio && s1.idle == s.idle
    requires s'.queues == s2.queues && s'.idle == s2.idle
    ensures Woken(s, s', Some(t))
  {
    forall p: nat ensures QueueAt(s', p) == QueueAt(s2, p) && QueueAt(s, p) == QueueAt(s1, p) {}
  }

  lemma {:induction false} SwitchedQueues(s: Sched)
    ensures SwitchOut(s).queues == s.queues && SwitchOut(s).prio == s.prio && SwitchOut(s).idle == s.idle
  {
  }

  lemma {:induction false} RotateEffect(s: Sched)
    requires Queues(s) && Tracks(s) && s.preempt == 0 && !s.resched
    ensures Rotates(s, DoRotate(s))
  {
    RotatedTurns(QueueAt(s, s.highest));
  }

  lemma {:induction false} EnableEffect(s: Sched)
    requires Inv(s) && s.preempt > 0
    ensures Effect(s, Enable, DoEnable(s))
  {
    if s.preempt == 1 && s.resched {
      var s1 := s.(preempt := 0, resched := false);
      SameQueues(s, s1);
      SameTracks(s, s1);
      RotateEffect(s1);
    }
  }

  lemma {:induction false} BlockEffect(s: Sched)
    requires Inv(s) && Enabled(s, Block)
    ensures Effect(s, Block, DoBlock(s))
  {
    BlockKeeps(s);
    RemoveParts(s);
    SwitchedQueues(Remove(s, s.active));
  }

  lemma {:induction false} BlockLockedEffect(s: Sched)
    requires Inv(s) && Enabled(s, BlockLocked)
    ensures Effect(s, BlockLocked, DoBlockLocked(s))
  {
    BlockLockedKeeps(s);
    LeavesQueue(s);
    RemoveParts(s);
    var s1 := Remove(s, s.active);
    if s.resched {
      RotatedTurns(QueueAt(s, s.highest));
    } else {
      SwitchedQueues(DoEnable(s1));
    }
  }

  lemma {:induction false} ExitEffect(s: Sched, wake: Option<nat>)
    requires Inv(s) && Enabled(s, Exit(wake))
    ensures Effect(s, Exit(wake), DoExit(s, wake))
  {
    ExitKeeps(s, wake);
    LeavesQueue(s);
    RemoveParts(s);
    var s1 := Remove(s, s.active);
    if wake.Some? {
      ReadyWakes(s1, wake.value);
      WakeLeaving(s1, wake.value);
      SwitchedQueues(DoReady(s1, wake.value));
    } else {
      SwitchedQueues(s1);
    }
    assert Parts(s, s1) && Woken(s1, DoExit(s, wake), wake);
  }

  lemma {:induction false} AdmitEffect(s: Sched, t: nat, p: nat)
    requires Inv(s) && Enabled(s, Admit(t, p))
    ensures Effect(s, Admit(t, p), DoAdmit(s, t, p))
  {
    assert QueueOk(s, p) && forall x | x in QueueAt(s, p) :: HasPrio(s, x, p);
  }

  lemma {:induction false} DestroyEffect(s: Sched, t: nat)
    requires Inv(s) && Enabled(s, Destroy(t))
    ensures Effect(s, Destroy(t), DoDestroy(s, t))
  {
    WithoutLeft(QueueAt(s, s.prio[t]), t);
  }

  /** Every step has its effect, and no other. */
  lemma {:induction false} StepEffect(s: Sched, act: Action)
    requires Inv(s) && Enabled(s, act)
    ensures Effect(s, act, Step(s, act)) && Inv(Step(s, act))
  {
    StepKeeps(s, act);
    match act
    case Admit(t, p) => AdmitEffect(s, t, p);
    case Ready(t) => ReadyWakes(s, t);
    case Rotate =>
      if s.preempt == 0 {
        RotateEffect(s);
      }
    case Disable =>
    case Enable => EnableEffect(s);
    case Block => BlockEffect(s);
    case BlockLocked => BlockLockedEffect(s);
    case Exit(wake) => ExitEffect(s, wake);
    case Destroy(t) => DestroyEffect(s, t);
  }

  // --------------------------------------------------------------- who is ready afterwards

  /** The ready tasks after a step. */
  ghost predicate ReadyAfter(s: Sched, act: Action, t: nat) {
    match act
    case Admit(x, _) => t == x || IsReady(s, t)
    case Ready(x) => t == x || IsReady(s, t)
    case Block => t != s.active && IsReady(s, t)
    case BlockLocked => t != s.active && IsReady(s, t)
    case Exit(wake) => wake == Some(t) || (t != s.active && IsReady(s, t))
    case Destroy(x) => t != x && IsReady(s, t)
    case _ => IsReady(s, t)
  }

  /** A woken or admitted task is ready; one that blocks, sleeps, ends or is
      destroyed is not; every other task is what it was. */
  lemma {:induction false} ReadyExactly(s: Sched, act: Action, t: nat)
    requires Inv(s) && Enabled(s, act)
    ensures IsReady(Step(s, act), t) <==> ReadyAfter(s, act, t)
  {
    StepEffect(s, act);
    var s' := Step(s, act);
    if t in s'.prio {
      ReadyIn(s, act, s', t, s'.prio[t]);
    }
  }

  lemma {:induction false} JoinedIn(q: seq<nat>, t: nat, q': seq<nat>, x: nat)
    requires Joined(q, t, q')
    ensures x in q' <==> x in q || x == t
  {
  }

  lemma {:induction false} LeftIn(q: seq<nat>, t: nat, q': seq<nat>, x: nat)
    requires Left(q, t, q') && NoDup(q)
    ensures x in q' <==> x in q && x != t
  {
    if t in q {
      var k :| 0 <= k < |q| && q[k] == t && q' == q[..k] + q[k + 1..];
      assert q == q[..k] + [t] + q[k + 1..];
    }
  }

  lemma {:induction false} TurnedIn(q: seq<nat>, q': seq<nat>, x: nat)
    requires Turned(q, q')
    ensures x in q' <==> x in q
  {
    assert q == [q[0]] + q[1..];
  }

  lemma {:induction false} TailIn(q: seq<nat>, x: nat)
    requires q != [] && NoDup(q)
    ensures x in q[1..] <==> x in q && x != q[0]
  {
    assert q == [q[0]] + q[1..];
  }

  lemma {:induction false} PartsIn(s: Sched, s': Sched, t: nat, p: nat)
    requires Inv(s) && Parts(s, s') && HasPrio(s, t, p)
    ensures t in QueueAt(s', p) <==> t in QueueAt(s, p) && t != s.active
  {
    assert QueueOk(s, s.prio[s.active]);
    TailIn(QueueAt(s, s.prio[s.active]), t);
  }

  lemma {:induction false} WokenIn(s: Sched, s': Sched, w: Option<nat>, t: nat, p: nat)
    requires Woken(s, s', w) && HasPrio(s, t, p) && (w.Some? ==> w.value in s.prio)
    ensures t in QueueAt(s', p) <==> t in QueueAt(s, p) || w == Some(t)
  {
    if w.Some? && PrioOf(s, w.value) == p {
      JoinedIn(QueueAt(s, p), w.value, QueueAt(s', p), t);
    }
  }

  lemma {:induction false} RotatesIn(s: Sched, s': Sched, t: nat, p: nat)
    requires Rotates(s, s')
    ensures t in QueueAt(s', p) <==> t in QueueAt(s, p)
  {
    TurnedIn(QueueAt(s, s.highest), QueueAt(s', s.highest), t);
  }

  lemma {:induction false} BlockedIn(s: Sched, s': Sched, t: nat, p: nat)
    requires Inv(s) && PartsAndRotates(s, s') && HasPrio(s, t, p)
    ensures t in QueueAt(s', p) <==> t in QueueAt(s, p) && t != s.active
  {
    assert QueueOk(s, s.prio[s.active]);
    TailIn(QueueAt(s, s.prio[s.active]), t);
    TurnedIn(QueueAt(s, s.highest), QueueAt(s', s.highest), t);
  }

  lemma {:induction false} ExitIn(s: Sched, s': Sched, wake: Option<nat>, t: nat, p: nat)
    requires Inv(s) && Enabled(s, Exit(wake)) && Effect(s, Exit(wake), s') && HasPrio(s, t, p)
    ensures t in QueueAt(s', p) <==> ReadyAfter(s, Exit(wake), t)
  {
    var s1 :| Parts(s, s1) && s1.prio == s.prio && Woken(s1, s', wake);
    PartsIn(s, s1, t, p);
    WokenIn(s1, s', wake, t, p);
  }

  lemma {:induction false} DestroyIn(s: Sched, s': Sched, x: nat, t: nat, p: nat)
    requires Inv(s) && Enabled(s, Destroy(x)) && Effect(s, Destroy(x), s') && HasPrio(s', t, p)
    ensures t in QueueAt(s', p) <==> t in QueueAt(s, p)
  {
    assert QueueOk(s, s.prio[x]);
    if s.prio[x] == p {
      LeftIn(QueueAt(s, p), x, QueueAt(s', p), t);
    }
  }

  lemma {:induction false} ReadyIn(s: Sched, act: Action, s': Sched, t: nat, p: nat)
    requires Inv(s) && Enabled(s, act) && Effect(s, act, s') && HasPrio(s', t, p) && (act.Admit? || HasPrio(s, t, p))
    ensures t in QueueAt(s', p) <==> ReadyAfter(s, act, t)
  {
    match act
    case Admit(x, _) => AdmitIn(s, s', x, t, p);
    case Ready(x) => WokenIn(s, s', Some(x), t, p);
    case Rotate =>
      if s.preempt == 0 {
        RotatesIn(s, s', t, p);
      }
    case Disable =>
    case Enable =>
      if s.preempt == 1 && s.resched {
        RotatesIn(s, s', t, p);
      }
    case Block => PartsIn(s, s', t, p);
    case BlockLocked =>
      if s.resched {
        BlockedIn(s, s', t, p);
      } else {
        PartsIn(s, s', t, p);
      }
    case Exit(wake) => ExitIn(s, s', wake, t, p);
    case Destroy(x) => DestroyIn(s, s', x, t, p);
  }

  lemma {:induction false} AdmitIn(s: Sched, s': Sched, x: nat, t: nat, p: nat)
    requires Inv(s) && HasPrio(s', t, p) && x !in s.prio && x in s'.prio && s'.prio == s.prio[x := s'.prio[x]]
    requires OnlyQueue(s, s', s'.prio[x]) && QueueAt(s', s'.prio[x]) == QueueAt(s, s'.prio[x]) + [x]
    ensures t in QueueAt(s', p) <==> t == x || IsReady(s, t)
  {
    assert t in QueueAt(s, p) ==> t in s.prio by {
      if t in QueueAt(s, p) {
        PrioInRange(s, t, p);
      }
    }
  }
}
