/** The circular doubly linked list every queue of the kernel is kept in: nodes
    joined by pointers, around a sentinel. A node is part of a record; `val`
    stands for the rest of it, which callbacks and comparisons look at. */
module CircularList {

  class Node<T> {
    var next: Node<T>
    var prev: Node<T>
    var inList: bool
    var val: T

    /** clist_init_node, for a node just created */
    constructor (val: T)
      ensures next == this && prev == this && !inList && Ring([this]) && this.val == val
    {
      next, prev, inList, this.val := this, this, false, val;
    }

    /** clist_init_node */
    method Init()
      modifies this`next, this`prev, this`inList
      ensures next == this && prev == this && !inList && Ring([this])
    {
      next, prev, inList := this, this, false;
    }
  }

  /** The position after `i`, going round. */
  function Succ(n: nat, i: nat): nat
  {
    if i + 1 == n then 0 else i + 1
  }

  predicate Distinct<T>(r: seq<Node<T>>)
  {
    forall i, j :: 0 <= i < j < |r| ==> r[i] != r[j]
  }

  ghost predicate LinkOk<T>(r: seq<Node<T>>, i: nat)
    requires i < |r|
    reads r
  {
    r[i].next == r[Succ(|r|, i)] && r[Succ(|r|, i)].prev == r[i] && r[i].inList == (i > 0)
  }

  /** The sentinel `r[0]` and the members `r[1..]`, in order. */
  ghost predicate Ring<T>(r: seq<Node<T>>)
    reads r
  {
    |r| > 0 && Distinct(r) && forall i: nat :: i < |r| ==> LinkOk(r, i)
  }

  function Inserted<T>(r: seq<Node<T>>, p: nat, node: Node<T>): seq<Node<T>>
    requires p < |r|
  {
    r[..p + 1] + [node] + r[p + 1..]
  }

  lemma InsertedAt<T>(r: seq<Node<T>>, p: nat, node: Node<T>, i: nat)
    requires p < |r| && i <= |r|
    ensures var r' := Inserted(r, p, node);
            && r'[i] == (if i <= p then r[i] else if i == p + 1 then node else r[i - 1])
            && r'[Succ(|r'|, i)] ==
               if i < p then r[i + 1] else if i == p then node else r[Succ(|r|, i - 1)]
  {
  }

  function Removed<T>(r: seq<Node<T>>, i: nat): seq<Node<T>>
    requires i < |r|
  {
    r[..i] + r[i + 1..]
  }

  lemma NotMember<T>(r: seq<Node<T>>, node: Node<T>)
    requires Ring(r) && !node.inList && node != r[0]
    ensures node !in r
  {
    forall i: nat | i < |r|
      ensures r[i] != node
    {
      assert LinkOk(r, i);
    }
  }

  /** clist_insert_after */
  method InsertAfter<T>(pos: Node<T>, node: Node<T>, ghost r: seq<Node<T>>, ghost p: nat)
    requires Ring(r) && p < |r| && r[p] == pos && node != r[0]
    modifies r`next, r`prev, r`inList, node`next, node`prev, node`inList
    ensures if old(node.inList) then unchanged(r, node) else Ring(Inserted(r, p, node))
  {
    if node.inList {
      return;
    }
    assert LinkOk(r, p);
    NotMember(r, node);
    node.next := pos.next;
    pos.next.prev := node;
    node.prev := pos;
    pos.next := node;
    node.inList := true;
    ghost var r' := Inserted(r, p, node);
    forall i: nat | i < |r'|
      ensures LinkOk(r', i)
    {
      InsertedAt(r, p, node, i);
      if i <= p {
        assert old(LinkOk(r, i));
      } else if i > p + 1 {
        assert old(LinkOk(r, i - 1));
      }
    }
  }

  /** The position before `i`, going round. */
  function Pred(n: nat, i: nat): nat
    requires i < n
  {
    if i == 0 then n - 1 else i - 1
  }

  /** clist_insert_before: the node comes after the predecessor of `pos`. */
  method InsertBefore<T>(pos: Node<T>, node: Node<T>, ghost r: seq<Node<T>>, ghost i: nat)
    requires Ring(r) && i < |r| && r[i] == pos && node != r[0]
    modifies r`next, r`prev, r`inList, node`next, node`prev, node`inList
    ensures if old(node.inList) then unchanged(r, node) else Ring(Inserted(r, Pred(|r|, i), node))
  {
    if node.inList {
      return;
    }
    ghost var p := Pred(|r|, i);
    assert LinkOk(r, p);
    NotMember(r, node);
    node.next := pos;
    node.prev := pos.prev;
    pos.prev.next := node;
    pos.prev := node;
    node.inList := true;
    ghost var r' := Inserted(r, p, node);
    forall i: nat | i < |r'|
      ensures LinkOk(r', i)
    {
      InsertedAt(r, p, node, i);
      if i <= p {
        assert old(LinkOk(r, i));
      } else if i > p + 1 {
        assert old(LinkOk(r, i - 1));
      }
    }
  }

  /** clist_push_back */
  method PushBack<T>(head: Node<T>, node: Node<T>, ghost r: seq<Node<T>>)
    requires Ring(r) && r[0] == head && node != head
    modifies r`next, r`prev, r`inList, node`next, node`prev, node`inList
    ensures if old(node.inList) then unchanged(r, node) else Ring(r + [node])
  {
    InsertBefore(head, node, r, 0);
    assert Inserted(r, |r| - 1, node) == r + [node];
  }

  /** clist_push_front */
  method PushFront<T>(head: Node<T>, node: Node<T>, ghost r: seq<Node<T>>)
    requires Ring(r) && r[0] == head && node != head
    modifies r`next, r`prev, r`inList, node`next, node`prev, node`inList
    ensures if old(node.inList) then unchanged(r, node) else Ring([head, node] + r[1..])
  {
    InsertAfter(head, node, r, 0);
    assert Inserted(r, 0, node) == [head, node] + r[1..];
  }

  /** clist_remove, on a node that is a member of the ring or in no list. */
  method Remove<T>(node: Node?<T>, ghost r: seq<Node<T>>, ghost i: nat)
    requires Ring(r) && (node != null && node.inList ==> i < |r| && r[i] == node)
    modifies r`next, r`prev, r`inList
    ensures if node == null || !old(node.inList) then unchanged(r) else
              Ring(Removed(r, i)) && Ring([node])
  {
    if node == null || !node.inList {
      return;
    }
    assert LinkOk(r, i) && LinkOk(r, Pred(|r|, i));
    node.prev.next := node.next;
    node.next.prev := node.prev;
    node.Init();
    ghost var r' := Removed(r, i);
    forall j: nat | j < |r'|
      ensures LinkOk(r', j)
    {
      assert old(LinkOk(r, if j < i then j else j + 1));
    }
  }

  /** clist_empty */
  method Empty<T>(head: Node<T>, ghost r: seq<Node<T>>) returns (b: bool)
    requires Ring(r) && r[0] == head
    ensures b == (|r| == 1)
  {
    assert LinkOk(r, 0);
    b := head.next == head;
  }

  /** clist_first and clist_last */
  method First<T>(head: Node<T>, ghost r: seq<Node<T>>) returns (n: Node?<T>)
    requires Ring(r) && r[0] == head
    ensures n == if |r| == 1 then null else r[1]
  {
    assert LinkOk(r, 0);
    var b := Empty(head, r);
    n := if b then null else head.next;
  }

  method Last<T>(head: Node<T>, ghost r: seq<Node<T>>) returns (n: Node?<T>)
    requires Ring(r) && r[0] == head
    ensures n == if |r| == 1 then null else r[|r| - 1]
  {
    assert LinkOk(r, |r| - 1);
    var b := Empty(head, r);
    n := if b then null else head.prev;
  }

  /** clist_pop_front */
  method PopFront<T>(head: Node<T>, ghost r: seq<Node<T>>) returns (n: Node?<T>)
    requires Ring(r) && r[0] == head
    modifies r`next, r`prev, r`inList
    ensures |r| == 1 ==> n == null && unchanged(r)
    ensures |r| > 1 ==> n == r[1] && Ring([head] + r[2..]) && Ring([r[1]])
  {
    var b := Empty(head, r);
    if b {
      return null;
    }
    assert LinkOk(r, 0) && LinkOk(r, 1);
    n := head.next;
    Remove(n, r, 1);
    assert Removed(r, 1) == [head] + r[2..];
  }

  /** The first position from `i` on whose node satisfies `p`. */
  function FirstOf<T>(r: seq<Node<T>>, i: nat, p: T -> bool): (k: nat)
    requires i <= |r|
    reads r`val
    ensures i <= k <= |r| && (k < |r| ==> p(r[k].val))
    ensures forall j :: i <= j < k ==> !p(r[j].val)
    decreases |r| - i
  {
    if i == |r| || p(r[i].val) then i else FirstOf(r, i + 1, p)
  }

  /** The last position before `i`, and not 0, whose node satisfies `p`. */
  function LastOf<T>(r: seq<Node<T>>, i: nat, p: T -> bool): (k: nat)
    requires 0 < i <= |r|
    reads r`val
    ensures k < i && (k > 0 ==> p(r[k].val))
    ensures forall j :: k < j < i ==> !p(r[j].val)
  {
    if i == 1 || p(r[i - 1].val) then i - 1 else LastOf(r, i - 1, p)
  }

  /** clist_find */
  method Find<T>(head: Node<T>, p: T -> bool, ghost r: seq<Node<T>>) returns (n: Node?<T>)
    requires Ring(r) && r[0] == head
    ensures var k := FirstOf(r, 1, p); n == if k < |r| then r[k] else null
  {
    ghost var i: nat := 1;
    assert LinkOk(r, 0);
    var current := head.next;
    while current != head
      invariant 1 <= i <= |r| && current == r[if i == |r| then 0 else i]
      invariant FirstOf(r, i, p) == FirstOf(r, 1, p)
      decreases |r| - i
    {
      if p(current.val) {
        return current;
      }
      assert LinkOk(r, i);
      current := current.next;
      i := i + 1;
    }
    return null;
  }

  /** clist_find_rev */
  method FindRev<T>(head: Node<T>, p: T -> bool, ghost r: seq<Node<T>>) returns (n: Node?<T>)
    requires Ring(r) && r[0] == head
    ensures var k := LastOf(r, |r|, p); n == if k > 0 then r[k] else null
  {
    ghost var i: nat := |r| - 1;
    assert LinkOk(r, i);
    var current := head.prev;
    while current != head
      invariant 0 <= i < |r| && current == r[i]
      invariant LastOf(r, i + 1, p) == LastOf(r, |r|, p)
      decreases i
    {
      if p(current.val) {
        return current;
      }
      assert LinkOk(r, i - 1);
      current := current.prev;
      i := i - 1;
    }
    return null;
  }

  /** What a comparison puts after `x`. */
  function After<T>(cmp: (T, T) -> int, x: T): T -> bool {
    y => cmp(y, x) > 0
  }

  function ByKey<T>(key: T -> int): (T, T) -> int {
    (x, y) => key(x) - key(y)
  }

  /** clist_insert_sorted: after every member that need not come after it. */
  method InsertSorted<T>(head: Node<T>, node: Node<T>, cmp: (T, T) -> int, ghost r: seq<Node<T>>)
    requires Ring(r) && r[0] == head && node != head
    modifies r`next, r`prev, r`inList, node`next, node`prev, node`inList
    ensures if old(node.inList) then unchanged(r, node) else
              Ring(Inserted(r, FirstOf(r, 1, After(cmp, node.val)) - 1, node))
  {
    ghost var after := After(cmp, node.val);
    ghost var i: nat := 1;
    assert LinkOk(r, 0);
    var current := head.next;
    while current != head && cmp(current.val, node.val) <= 0
      invariant 1 <= i <= |r| && current == r[if i == |r| then 0 else i]
      invariant FirstOf(r, i, after) == FirstOf(r, 1, after)
      decreases |r| - i
    {
      assert LinkOk(r, i);
      current := current.next;
      i := i + 1;
    }
    InsertBefore(current, node, r, if i == |r| then 0 else i);
  }

  /** A comparison by keys keeps the members sorted, and equal keys in order of
      arrival. */
  lemma SortedKept<T>(r: seq<Node<T>>, node: Node<T>, key: T -> int)
    requires |r| > 0 && forall i, j :: 1 <= i < j < |r| ==> key(r[i].val) <= key(r[j].val)
    ensures var k := FirstOf(r, 1, After(ByKey(key), node.val));
            var r' := Inserted(r, k - 1, node);
            && (forall i, j :: 1 <= i < j < |r'| ==> key(r'[i].val) <= key(r'[j].val))
            && r'[k] == node && forall j :: k < j < |r'| ==> key(node.val) < key(r'[j].val)
  {
    var k := FirstOf(r, 1, After(ByKey(key), node.val));
    var r' := Inserted(r, k - 1, node);
    assert forall j :: 0 <= j < |r'| ==> r'[j] == if j < k then r[j] else if j == k then node else r[j - 1];
  }

  /** While the list is taken apart: the members from `k` on are still linked,
      the first of them to the sentinel. */
  ghost predicate RestOk<T>(r: seq<Node<T>>, k: nat, i: nat)
    requires 0 < k <= i < |r|
    reads r
  {
    r[i].next == r[Succ(|r|, i)] && r[i].prev == (if i == k then r[0] else r[i - 1]) && r[i].inList
  }

  ghost predicate Detaching<T>(r: seq<Node<T>>, k: nat)
    requires 0 < k <= |r|
    reads r
  {
    && Distinct(r)
    && (forall i: nat :: k <= i < |r| ==> RestOk(r, k, i))
    && (forall i: nat :: 0 < i < k ==> Ring([r[i]]))
    && r[0].prev == r[0] && !r[0].inList && (k == |r| ==> r[0].next == r[0])
  }

  /** The sentinel is reset first. */
  method DetachHead<T>(head: Node<T>, ghost r: seq<Node<T>>) returns (first: Node<T>)
    requires Ring(r) && r[0] == head
    modifies r`next, r`prev, r`inList
    ensures Detaching(r, 1) && first == r[Succ(|r|, 0)]
  {
    assert LinkOk(r, 0);
    first := head.next;
    head.Init();
    forall i: nat | 1 <= i < |r|
      ensures RestOk(r, 1, i)
    {
      assert old(LinkOk(r, i - 1)) && old(LinkOk(r, i));
    }
  }

  /** One turn: the next member is detached. */
  method DetachNext<T>(current: Node<T>, ghost r: seq<Node<T>>, ghost k: nat) returns (next: Node<T>)
    requires 0 < k < |r| && current == r[k] && Detaching(r, k)
    modifies r`next, r`prev, r`inList
    ensures Detaching(r, k + 1) && next == r[Succ(|r|, k)]
  {
    assert RestOk(r, k, k);
    assert k + 1 < |r| ==> RestOk(r, k, k + 1);
    next := current.next;
    current.prev.next := current.next;
    current.next.prev := current.prev;
    current.Init();
    ghost var k' := k + 1;
    forall i: nat | k' <= i < |r|
      ensures RestOk(r, k', i)
    {
      assert old(RestOk(r, k, i));
    }
    forall i: nat | 0 < i < k + 1
      ensures Ring([r[i]])
    {
      assert i < k ==> old(Ring([r[i]]));
    }
  }

  lemma AllDetached<T>(r: seq<Node<T>>)
    requires |r| > 0 && Detaching(r, |r|)
    ensures forall i: nat :: i < |r| ==> Ring([r[i]])
  {
    assert Ring([r[0]]);
  }

  /** clist_for_each_and_del: every member is detached, in order, and the first
      one whose callback fails is returned. */
  method ForEachAndDel<T>(head: Node<T>, fails: T -> bool, ghost r: seq<Node<T>>) returns (failure: Node?<T>)
    requires Ring(r) && r[0] == head
    modifies r`next, r`prev, r`inList
    ensures forall i: nat :: i < |r| ==> Ring([r[i]])
    ensures var k := FirstOf(r, 1, fails); failure == if k < |r| then r[k] else null
  {
    ghost var k: nat := 1;
    var current := DetachHead(head, r);
    failure := null;
    ghost var found := FirstOf(r, 1, fails);
    while current != head
      invariant 1 <= k <= |r| && current == r[if k == |r| then 0 else k]
      invariant Detaching(r, k)
      invariant FirstOf(r, 1, fails) == found
      invariant failure == null ==> FirstOf(r, k, fails) == found
      invariant failure != null ==> found < k && failure == r[found]
      decreases |r| - k
    {
      var next := DetachNext(current, r, k);
      if fails(current.val) {
        failure := if failure != null then failure else current;
      }
      current := next;
      k := k + 1;
    }
    AllDetached(r);
  }
}
