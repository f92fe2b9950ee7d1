/**
 Facts about plain sequences that several modules need.
 */
module Sequences {

  ghost predicate Distinct<T>(q: seq<T>) {
    forall i, j :: 0 <= i < j < |q| ==> q[i] != q[j]
  }

  /** q without t. */
  function Without<T(==,!new)>(q: seq<T>, t: T): (r: seq<T>)
    ensures forall u :: u in r <==> u in q && u != t
    ensures |r| <= |q|
  {
    if q == [] then [] else if q[0] == t then Without(q[1..], t) else [q[0]] + Without(q[1..], t)
  }

  lemma {:induction false} WithoutDistinct<T(!new)>(q: seq<T>, t: T)
    requires Distinct(q)
    ensures Distinct(Without(q, t))
  {
    if q != [] {
      WithoutDistinct(q[1..], t);
      assert forall u :: u in Without(q[1..], t) ==> u != q[0];
    }
  }

  /** a stands before b in q. */
  ghost predicate Ahead<T(!new)>(q: seq<T>, a: T, b: T) {
    exists i, j :: 0 <= i < j < |q| && q[i] == a && q[j] == b
  }

  lemma AheadTail<T(!new)>(x: T, q: seq<T>, a: T, b: T)
    ensures Ahead([x] + q, a, b) <==> (x == a && b in q) || Ahead(q, a, b)
  {
    var r := [x] + q;
    if Ahead(r, a, b) {
      var i, j :| 0 <= i < j < |r| && r[i] == a && r[j] == b;
      assert q[j - 1] == b;
      if i > 0 {
        assert q[i - 1] == a;
      }
    }
    if Ahead(q, a, b) {
      var i, j :| 0 <= i < j < |q| && q[i] == a && q[j] == b;
      assert r[i + 1] == a && r[j + 1] == b;
    }
    if x == a && b in q {
      var j :| 0 <= j < |q| && q[j] == b;
      assert r[0] == a && r[j + 1] == b;
    }
  }

  lemma {:induction false} WithoutAhead<T(!new)>(q: seq<T>, t: T, a: T, b: T)
    requires Ahead(q, a, b) && t != a && t != b
    ensures Ahead(Without(q, t), a, b)
  {
    assert q == [q[0]] + q[1..];
    hide Ahead;
    AheadTail(q[0], q[1..], a, b);
    AheadTail(q[0], Without(q[1..], t), a, b);
    if Ahead(q[1..], a, b) {
      WithoutAhead(q[1..], t, a, b);
    }
  }

  lemma AppendAhead<T(!new)>(q: seq<T>, t: T, a: T, b: T)
    requires Ahead(q, a, b)
    ensures Ahead(q + [t], a, b)
  {
    var i, j :| 0 <= i < j < |q| && q[i] == a && q[j] == b;
    assert (q + [t])[i] == a && (q + [t])[j] == b;
  }

  lemma InsertDistinct<T>(q: seq<T>, t: T, at: nat)
    requires Distinct(q) && t !in q && at <= |q|
    ensures Distinct(q[..at] + [t] + q[at..])
  {
    var r := q[..at] + [t] + q[at..];
    forall i, j | 0 <= i < j < |r|
      ensures r[i] != r[j]
    {
      assert r[i] == if i < at then q[i] else if i == at then t else q[i - 1];
      assert r[j] == if j < at then q[j] else if j == at then t else q[j - 1];
    }
  }

  /** What is left when the k-th element is taken out. */
  lemma CutMembers<T>(q: seq<T>, k: nat)
    requires k < |q|
    ensures forall x :: x in q[..k] + q[k + 1..] <==> x in q[..k] || x in q[k + 1..]
    ensures forall x :: x in q <==> x in q[..k] || x == q[k] || x in q[k + 1..]
  {
    assert q == q[..k] + [q[k]] + q[k + 1..];
  }

  lemma ConcatAssociates<T>(a: seq<T>, b: seq<T>, c: seq<T>)
    ensures a + (b + c) == a + b + c && a + [] == a
  {
  }

  lemma DistinctConcat<T>(a: seq<T>, b: seq<T>)
    requires Distinct(a) && Distinct(b) && forall t :: t in a ==> t !in b
    ensures Distinct(a + b)
  {
    var c := a + b;
    forall i, j | 0 <= i < j < |c|
      ensures c[i] != c[j]
    {
      if i < |a| <= j {
        assert c[i] in a && c[j] in b;
      }
    }
  }

  lemma {:induction false} DistinctSize<T>(q: seq<T>, m: set<T>)
    requires Distinct(q) && forall t :: t in q <==> t in m
    ensures |q| == |m|
  {
    if q == [] {
      assert m == {};
    } else {
      var n := |q| - 1;
      assert forall t :: t in q[..n] <==> t in m - {q[n]};
      DistinctSize(q[..n], m - {q[n]});
    }
  }
}
