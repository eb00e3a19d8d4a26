/** What several components share. */
module Common {
  datatype Option<+T> = None | Some(value: T)

  function Get<K, V>(m: map<K, V>, k: K): Option<V> {
    if k in m then Some(m[k]) else None
  }

  /** A queue after one of its members was unlinked. */
  function Without(q: seq<nat>, t: nat): seq<nat> {
    if q == [] then [] else if q[0] == t then q[1..] else [q[0]] + Without(q[1..], t)
  }

  lemma {:induction false} WithoutCut(q: seq<nat>, i: nat) returns (k: nat)
    requires i in q
    ensures k < |q| && q[k] == i && Without(q, i) == q[..k] + q[k + 1..]
  {
    if q[0] == i {
      k := 0;
    } else {
      var j := WithoutCut(q[1..], i);
      k := j + 1;
      assert q[..k] == [q[0]] + q[1..][..j] && q[k + 1..] == q[1..][j + 1..];
    }
  }
}
