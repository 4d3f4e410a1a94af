/**
 Sequence edits the queue transactions make (`retain`, `remove`, `insert`),
 with what each keeps: membership, distinctness, and relative order.
 */
module Ordering {
  import opened Prelude

  predicate Distinct<T(==)>(q: seq<T>) {
    forall i, j :: 0 <= i < j < |q| ==> q[i] != q[j]
  }

  /** `a` stands somewhere ahead of `b`. */
  ghost predicate Before<T>(q: seq<T>, a: T, b: T) {
    exists i, j :: 0 <= i < j < |q| && q[i] == a && q[j] == b
  }

  /** `retain(|x| !gone.contains(x))`. */
  function Without<T(==)>(q: seq<T>, gone: set<T>): seq<T> {
    if q == [] then []
    else if q[0] in gone then Without(q[1..], gone)
    else [q[0]] + Without(q[1..], gone)
  }

  /** First position of `x`, as `position(|y| y == x)`. */
  function IndexOf<T(==)>(q: seq<T>, x: T): (i: Option<nat>)
    ensures i.Some? ==> i.value < |q| && q[i.value] == x && x !in q[..i.value]
    ensures i.None? <==> x !in q
  {
    if q == [] then None
    else if q[0] == x then Some(0)
    else match IndexOf(q[1..], x)
      case None => None
      case Some(i) =>
        assert q[..i + 1] == [q[0]] + q[1..][..i];
        Some(i + 1)
  }

  function RemoveAt<T>(q: seq<T>, i: nat): seq<T>
    requires i < |q|
  {
    q[..i] + q[i + 1..]
  }

  function InsertAt<T>(q: seq<T>, j: nat, x: T): seq<T>
    requires j <= |q|
  {
    q[..j] + [x] + q[j..]
  }

  /** `let x = q.remove(i); q.insert(j, x)`. */
  function Relocate<T>(q: seq<T>, i: nat, j: nat): seq<T>
    requires i < |q| && j < |q|
  {
    InsertAt(RemoveAt(q, i), j, q[i])
  }

  lemma {:induction false} WithoutMembers<T>(q: seq<T>, gone: set<T>)
    ensures forall x :: x in Without(q, gone) <==> x in q && x !in gone
    ensures |Without(q, gone)| <= |q|
    ensures |Without(q, gone)| == |q| <==> forall x :: x in q ==> x !in gone
  {
    if q != [] {
      WithoutMembers(q[1..], gone);
      assert q == [q[0]] + q[1..];
    }
  }

  lemma {:induction false} WithoutNothing<T>(q: seq<T>, gone: set<T>)
    requires forall x :: x in q ==> x !in gone
    ensures Without(q, gone) == q
  {
    if q != [] {
      assert forall x :: x in q[1..] ==> x in q;
      WithoutNothing(q[1..], gone);
      assert q == [q[0]] + q[1..];
    }
  }

  lemma {:induction false} WithoutDistinct<T>(q: seq<T>, gone: set<T>)
    requires Distinct(q)
    ensures Distinct(Without(q, gone))
  {
    if q != [] {
      WithoutDistinct(q[1..], gone);
      WithoutMembers(q[1..], gone);
    }
  }

  lemma {:induction false} BeforeCons<T>(x: T, q: seq<T>, a: T, b: T)
    ensures Before([x] + q, a, b) <==> (x == a && b in q) || Before(q, a, b)
  {
    var p := [x] + q;
    assert forall i :: 0 <= i < |q| ==> p[i + 1] == q[i];
    if x == a && b in q {
      var j :| 0 <= j < |q| && q[j] == b;
      assert p[0] == a && p[j + 1] == b;
    }
    if Before(q, a, b) {
      var i, j :| 0 <= i < j < |q| && q[i] == a && q[j] == b;
      assert p[i + 1] == a && p[j + 1] == b;
    }
    if Before(p, a, b) {
      var i, j :| 0 <= i < j < |p| && p[i] == a && p[j] == b;
      assert q[j - 1] == b;
      if i > 0 { assert q[i - 1] == a; }
    }
  }

  /** Survivors keep their relative order, and nothing else is ordered. */
  lemma {:induction false} WithoutOrder<T>(q: seq<T>, gone: set<T>, a: T, b: T)
    ensures Before(Without(q, gone), a, b) <==> Before(q, a, b) && a !in gone && b !in gone
  {
    if q != [] {
      var rest := q[1..];
      WithoutOrder(rest, gone, a, b);
      WithoutMembers(rest, gone);
      assert q == [q[0]] + rest;
      BeforeCons(q[0], rest, a, b);
      if q[0] !in gone {
        BeforeCons(q[0], Without(rest, gone), a, b);
      }
    }
  }

  lemma RelocatePermutes<T>(q: seq<T>, i: nat, j: nat)
    requires i < |q| && j < |q|
    ensures multiset(Relocate(q, i, j)) == multiset(q)
    ensures Relocate(q, i, j)[j] == q[i]
    ensures 0 < i && 0 < j ==> Relocate(q, i, j)[0] == q[0]
  {
    var rest := RemoveAt(q, i);
    var x := multiset{q[i]};
    calc {
      multiset(q);
      { assert q == q[..i] + [q[i]] + q[i + 1..]; }
      multiset(q[..i]) + x + multiset(q[i + 1..]);
      multiset(rest) + x;
      { assert rest == rest[..j] + rest[j..]; }
      multiset(rest[..j]) + x + multiset(rest[j..]);
      multiset(Relocate(q, i, j));
    }
  }

  lemma PermutedMembers<T>(p: seq<T>, q: seq<T>)
    requires multiset(p) == multiset(q)
    ensures |p| == |q|
    ensures forall x :: x in p <==> x in q
  {
    assert |p| == |multiset(p)| && |q| == |multiset(q)|;
    forall x ensures x in p <==> x in q {
      assert x in p <==> x in multiset(p);
    }
  }

  lemma DistinctIsMultiplicity<T>(q: seq<T>)
    ensures Distinct(q) <==> forall x :: multiset(q)[x] <= 1
  {
    if q != [] {
      var rest := q[1..];
      DistinctIsMultiplicity(rest);
      assert q == [q[0]] + rest;
      assert multiset(q) == multiset{q[0]} + multiset(rest);
      if Distinct(q) {
        assert q[0] !in rest;
        assert multiset(rest)[q[0]] == 0;
      } else if Distinct(rest) {
        var j :| 0 < j < |q| && q[0] == q[j];
        assert q[j] == rest[j - 1];
        assert q[0] in rest;
        assert multiset(q)[q[0]] > 1;
      } else {
        var x :| multiset(rest)[x] > 1;
        assert multiset(q)[x] > 1;
      }
    }
  }

  lemma RelocateDistinct<T>(q: seq<T>, i: nat, j: nat)
    requires i < |q| && j < |q| && Distinct(q)
    ensures Distinct(Relocate(q, i, j))
  {
    RelocatePermutes(q, i, j);
    DistinctIsMultiplicity(q);
    DistinctIsMultiplicity(Relocate(q, i, j));
  }

  /** Removing the moved element from both queues leaves the same sequence. */
  lemma {:induction false} WithoutSplit<T>(p: seq<T>, q: seq<T>, gone: set<T>)
    ensures Without(p + q, gone) == Without(p, gone) + Without(q, gone)
  {
    if p == [] {
      assert p + q == q;
    } else {
      WithoutSplit(p[1..], q, gone);
      assert (p + q)[1..] == p[1..] + q;
    }
  }

  /** A move changes the order of no pair that leaves out the moved element. */
  lemma RelocateOrder<T>(q: seq<T>, i: nat, j: nat, a: T, b: T)
    requires i < |q| && j < |q| && a != q[i] && b != q[i]
    ensures Before(Relocate(q, i, j), a, b) <==> Before(q, a, b)
  {
    var x := q[i];
    var rest := RemoveAt(q, i);
    assert q == q[..i] + ([x] + q[i + 1..]);
    assert rest == rest[..j] + rest[j..];
    assert Relocate(q, i, j) == rest[..j] + ([x] + rest[j..]);
    WithoutSplit(q[..i], [x] + q[i + 1..], {x});
    WithoutSplit(q[..i], q[i + 1..], {x});
    WithoutSplit([x], q[i + 1..], {x});
    WithoutSplit(rest[..j], [x] + rest[j..], {x});
    WithoutSplit(rest[..j], rest[j..], {x});
    WithoutSplit([x], rest[j..], {x});
    assert Without([x], {x}) == [];
    assert Without(q, {x}) == Without(Relocate(q, i, j), {x});
    WithoutOrder(q, {x}, a, b);
    WithoutOrder(Relocate(q, i, j), {x}, a, b);
  }
}
