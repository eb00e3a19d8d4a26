/** What a space may do with a page it maps, over every run: the permission is
    given when the page is mapped, and nothing changes it. */
module Permissions {
  import opened Common
  import opened Types
  import opened CowModel

  /** User mode reaches the page at `k`. */
  predicate UserAt(leaves: map<Key, Pte>, k: Key) {
    k in leaves && leaves[k].fl.u
  }

  /** The step takes the page at `k` away. */
  predicate Drops(act: Action, k: Key) {
    act == Unmap(k) || act == Free(k.0)
  }

  ghost predicate Keeps(acts: seq<Action>, k: Key) {
    forall i | 0 <= i < |acts| :: !Drops(acts[i], k)
  }

  lemma ForkPerm(vm: Vm, r: nat, c: nat, k: Key)
    requires Inv(vm) && Enabled(vm, Fork(r, c)) && k in vm.leaves
    ensures var now := ForkLeaves(vm.leaves, r, c);
            k in now && PermOf(now[k].fl) == PermOf(vm.leaves[k].fl) && (k.1 == TRAPFRAME ==> now[k] == vm.leaves[k])
  {
  }

  lemma StepPerm(vm: Vm, act: Action, k: Key)
    requires Inv(vm) && Enabled(vm, act) && k in vm.leaves && !Drops(act, k)
    ensures var now := Apply(vm, act).leaves;
            && k in now && PermOf(now[k].fl) == PermOf(vm.leaves[k].fl)
            && (k.1 == TRAPFRAME && !vm.leaves[k].fl.cow ==> now[k] == vm.leaves[k])
  {
    match act
    case Fork(r, c) => ForkPerm(vm, r, c, k);
    case _ =>
  }

  /** A mapped page keeps its permission until it is unmapped, whatever is
      forked, copied and freed meanwhile; a trap frame keeps its very entry. */
  lemma {:induction false} RunPerm(vm: Vm, acts: seq<Action>, k: Key)
    requires Runnable(vm, acts) && k in vm.leaves && Keeps(acts, k)
    ensures var now := Run(vm, acts).leaves;
            && k in now && PermOf(now[k].fl) == PermOf(vm.leaves[k].fl)
            && (k.1 == TRAPFRAME && !vm.leaves[k].fl.cow ==> now[k] == vm.leaves[k])
    decreases |acts|
  {
    if acts != [] {
      assert !Drops(acts[0], k);
      StepPerm(vm, acts[0], k);
      assert forall i | 0 <= i < |acts| - 1 :: acts[1..][i] == acts[i + 1];
      RunPerm(Apply(vm, acts[0]), acts[1..], k);
    }
  }

  /** User mode comes to a page in two ways only: it is mapped with U, or fork
      copies it from a parent that has it, which fork never does with the page
      of the trap frame. */
  lemma UserComes(vm: Vm, act: Action, k: Key)
    requires Inv(vm) && Enabled(vm, act) && !UserAt(vm.leaves, k)
    ensures UserAt(Apply(vm, act).leaves, k) <==>
            || (act.Map? && act.at == k && act.fl.u)
            || (act.Fork? && act.child == k.0 && k.1 != TRAPFRAME && UserAt(vm.leaves, (act.parent, k.1)))
  {
    match act
    case Fork(r, c) =>
      var now := ForkLeaves(vm.leaves, r, c);
      assert k.0 == c ==> k !in vm.leaves;
      if k.0 == c && UserAt(vm.leaves, (r, k.1)) && k.1 != TRAPFRAME {
        assert Copied(vm.leaves, r, END, (r, k.1));
        assert k in now;
      }
    case _ =>
  }

  /** No step maps page number `v` for user mode. */
  ghost predicate NeverUser(acts: seq<Action>, v: Vpn) {
    forall i | 0 <= i < |acts| :: acts[i].Map? && acts[i].at.1 == v ==> !acts[i].fl.u
  }

  /** Where no space lets user mode in, none does after any run that does not
      map the page for it. */
  lemma {:induction false} RunShields(vm: Vm, acts: seq<Action>, v: Vpn)
    requires Runnable(vm, acts) && NeverUser(acts, v) && forall r :: !UserAt(vm.leaves, (r, v))
    ensures forall r :: !UserAt(Run(vm, acts).leaves, (r, v))
    decreases |acts|
  {
    if acts != [] {
      var vm' := Apply(vm, acts[0]);
      forall r ensures !UserAt(vm'.leaves, (r, v)) {
        UserComes(vm, acts[0], (r, v));
      }
      assert forall i | 0 <= i < |acts| - 1 :: acts[1..][i] == acts[i + 1];
      RunShields(vm', acts[1..], v);
    }
  }
}
