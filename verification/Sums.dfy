/** Sums of a weight over a sequence, and what queue operations do to them. */
module Sums {
  import opened Pipeline

  ghost function Sum<X>(q: seq<X>, f: X -> nat): nat {
    if q == [] then 0 else Sum(q[..|q| - 1], f) + f(q[|q| - 1])
  }

  lemma SumPush<X>(q: seq<X>, x: X, f: X -> nat)
    ensures Sum(q + [x], f) == Sum(q, f) + f(x)
  {
    assert (q + [x])[..|q|] == q;
  }

  lemma {:induction false} SumConcat<X>(p: seq<X>, q: seq<X>, f: X -> nat)
    ensures Sum(p + q, f) == Sum(p, f) + Sum(q, f)
  {
    if q == [] {
      assert p + q == p;
    } else {
      var n := |q| - 1;
      assert (p + q)[..|p + q| - 1] == p + q[..n];
      SumConcat(p, q[..n], f);
    }
  }

  lemma SumOne<X>(x: X, f: X -> nat)
    ensures Sum([x], f) == f(x)
  {
    SumPush([], x, f);
    assert [] + [x] == [x];
  }

  lemma SumRemoveAt<X>(q: seq<X>, i: nat, f: X -> nat)
    requires i < |q|
    ensures Sum(RemoveAt(q, i), f) + f(q[i]) == Sum(q, f)
  {
    hide Sum;
    var front, back := q[..i], q[i + 1..];
    assert q == (front + [q[i]]) + back;
    SumConcat(front + [q[i]], back, f);
    SumPush(front, q[i], f);
    SumConcat(front, back, f);
  }

  lemma SumInsertAt<X>(q: seq<X>, i: nat, x: X, f: X -> nat)
    requires i <= |q|
    ensures Sum(InsertAt(q, i, x), f) == Sum(q, f) + f(x)
  {
    var front, back := q[..i], q[i..];
    assert q == front + back;
    SumConcat(front, back, f);
    SumConcat(front + [x], back, f);
    SumPush(front, x, f);
  }

  lemma SumUpdate<X>(q: seq<X>, i: nat, x: X, f: X -> nat)
    requires i < |q|
    ensures Sum(q[i := x], f) + f(q[i]) == Sum(q, f) + f(x)
  {
    SumRemoveAt(q, i, f);
    SumRemoveAt(q[i := x], i, f);
    assert RemoveAt(q[i := x], i) == RemoveAt(q, i);
  }

  lemma SumTail<X>(q: seq<X>, f: X -> nat)
    requires q != []
    ensures Sum(q, f) == f(q[0]) + Sum(q[1..], f)
  {
    assert q == [q[0]] + q[1..];
    SumConcat([q[0]], q[1..], f);
    SumOne(q[0], f);
  }

  /** Weights of at most one sum to at most the length. */
  lemma {:induction false} SumAtMost<X>(q: seq<X>, f: X -> nat)
    requires forall x :: x in q ==> f(x) <= 1
    ensures Sum(q, f) <= |q|
  {
    if q != [] {
      SumAtMost(q[..|q| - 1], f);
    }
  }

  /** A member contributes. */
  lemma SumHasMember<X>(q: seq<X>, i: nat, f: X -> nat)
    requires i < |q|
    ensures Sum(q, f) >= f(q[i])
  {
    SumRemoveAt(q, i, f);
  }

  /** A positive sum has a positive member. */
  lemma {:induction false} SumPositive<X>(q: seq<X>, f: X -> nat) returns (i: nat)
    requires Sum(q, f) > 0
    ensures i < |q| && f(q[i]) > 0
  {
    var n := |q| - 1;
    if f(q[n]) > 0 {
      i := n;
    } else {
      i := SumPositive(q[..n], f);
    }
  }

  lemma {:induction false} SumZero<X>(q: seq<X>, f: X -> nat)
    requires forall i :: 0 <= i < |q| ==> f(q[i]) == 0
    ensures Sum(q, f) == 0
  {
    if q != [] {
      SumZero(q[..|q| - 1], f);
    }
  }
}
