/** An optional value, and lists without repetition. */
module Basics {
  datatype Option<+T> = None | Some(value: T)

  predicate NoDup(l: seq<nat>) {
    forall i, j :: 0 <= i < j < |l| ==> l[i] != l[j]
  }

  /** Position of `x` in a list that holds it. */
  function IndexOf(l: seq<nat>, x: nat): (k: nat)
    requires x in l
    ensures k < |l| && l[k] == x
  {
    if l[0] == x then 0 else 1 + IndexOf(l[1..], x)
  }

  function Without(l: seq<nat>, k: nat): seq<nat>
    requires k < |l|
  {
    l[..k] + l[k + 1..]
  }

  lemma WithoutMembers(l: seq<nat>, k: nat)
    requires k < |l| && NoDup(l)
    ensures NoDup(Without(l, k)) && forall x: nat :: x in Without(l, k) <==> x in l && x != l[k]
  {
    var l' := Without(l, k);
    assert forall i :: 0 <= i < |l'| ==> l'[i] == if i < k then l[i] else l[i + 1];
    forall x: nat | x in l && x != l[k] ensures x in l' {
      var i :| 0 <= i < |l| && l[i] == x;
      assert l'[if i < k then i else i - 1] == x;
    }
  }
}
