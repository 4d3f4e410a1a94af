/** `sort_by_key`: the one arrangement that is sorted by key and leaves every key's elements in their order. */
module Sorting {
  predicate Sorted<T>(s: seq<T>, key: T -> nat) {
    forall i, j :: 0 <= i < j < |s| ==> key(s[i]) <= key(s[j])
  }

  function InsertByKey<T>(x: T, s: seq<T>, key: T -> nat): seq<T> {
    if s == [] || key(x) <= key(s[0]) then [x] + s else [s[0]] + InsertByKey(x, s[1..], key)
  }

  function SortByKey<T>(s: seq<T>, key: T -> nat): (r: seq<T>)
    ensures |r| == |s|
  {
    if s == [] then [] else
      InsertedLength(s[0], SortByKey(s[1..], key), key);
      InsertByKey(s[0], SortByKey(s[1..], key), key)
  }

  lemma {:induction false} InsertedLength<T>(x: T, s: seq<T>, key: T -> nat)
    ensures |InsertByKey(x, s, key)| == |s| + 1
  {
    if s != [] && key(x) > key(s[0]) { InsertedLength(x, s[1..], key); }
  }

  /** The elements of one key, in order. */
  function WithKey<T>(s: seq<T>, key: T -> nat, v: nat): seq<T> {
    if s == [] then [] else (if key(s[0]) == v then [s[0]] else []) + WithKey(s[1..], key, v)
  }

  lemma {:induction false} InsertedMembers<T>(x: T, s: seq<T>, key: T -> nat)
    ensures multiset(InsertByKey(x, s, key)) == multiset{x} + multiset(s)
  {
    if s != [] && key(x) > key(s[0]) {
      InsertedMembers(x, s[1..], key);
      assert s == [s[0]] + s[1..];
    }
  }

  lemma {:induction false} InsertKeepsSorted<T>(x: T, s: seq<T>, key: T -> nat)
    requires Sorted(s, key)
    ensures Sorted(InsertByKey(x, s, key), key)
  {
    if s != [] && key(x) > key(s[0]) {
      var r := InsertByKey(x, s[1..], key);
      InsertKeepsSorted(x, s[1..], key);
      InsertedMembers(x, s[1..], key);
      forall y | y in r ensures key(s[0]) <= key(y) {
        assert y in multiset(r);
        assert y == x || y in s[1..];
      }
    }
  }

  lemma {:induction false} InsertKeepsOrder<T>(x: T, s: seq<T>, key: T -> nat, v: nat)
    ensures WithKey(InsertByKey(x, s, key), key, v) == (if key(x) == v then [x] else []) + WithKey(s, key, v)
  {
    if s == [] || key(x) <= key(s[0]) {
      WithKeyCons(x, s, key, v);
    } else {
      InsertKeepsOrder(x, s[1..], key, v);
      WithKeyCons(s[0], InsertByKey(x, s[1..], key), key, v);
      assert key(x) == v ==> key(s[0]) != v;
    }
  }

  lemma WithKeyCons<T>(x: T, s: seq<T>, key: T -> nat, v: nat)
    ensures WithKey([x] + s, key, v) == (if key(x) == v then [x] else []) + WithKey(s, key, v)
  {
    assert ([x] + s)[1..] == s;
  }

  /** A sort keeps every element, sorts by key, and leaves the elements of each key in the order they had. */
  lemma {:induction false} SortByKeyIsStable<T>(s: seq<T>, key: T -> nat)
    ensures multiset(SortByKey(s, key)) == multiset(s)
    ensures Sorted(SortByKey(s, key), key)
    ensures forall v :: WithKey(SortByKey(s, key), key, v) == WithKey(s, key, v)
  {
    if s != [] {
      SortByKeyIsStable(s[1..], key);
      var r := SortByKey(s[1..], key);
      InsertedMembers(s[0], r, key);
      InsertKeepsSorted(s[0], r, key);
      assert s == [s[0]] + s[1..];
      forall v ensures WithKey(SortByKey(s, key), key, v) == WithKey(s, key, v) {
        InsertKeepsOrder(s[0], r, key, v);
      }
    }
  }

  lemma {:induction false} HeadOfKey<T>(s: seq<T>, key: T -> nat, v: nat)
    requires exists i :: 0 <= i < |s| && key(s[i]) == v
    ensures WithKey(s, key, v) != []
  {
    if key(s[0]) != v {
      var i :| 0 <= i < |s| && key(s[i]) == v;
      assert s[1..][i - 1] == s[i];
      HeadOfKey(s[1..], key, v);
    }
  }

  lemma {:induction false} WithKeyMembers<T>(s: seq<T>, key: T -> nat, v: nat)
    ensures forall x :: x in WithKey(s, key, v) <==> x in s && key(x) == v
  {
    if s != [] {
      WithKeyMembers(s[1..], key, v);
      assert s == [s[0]] + s[1..];
    }
  }

  lemma WithKeyTail<T>(s: seq<T>, key: T -> nat, v: nat)
    requires s != []
    ensures WithKey(s[1..], key, v) == if key(s[0]) == v then WithKey(s, key, v)[1..] else WithKey(s, key, v)
  {
  }

  /** Two sorted arrangements with the same elements of each key, in the same order, are the same arrangement. */
  lemma {:induction false} StableSortIsUnique<T>(s: seq<T>, t: seq<T>, key: T -> nat)
    requires Sorted(s, key) && Sorted(t, key)
    requires forall v :: WithKey(s, key, v) == WithKey(t, key, v)
    ensures s == t
  {
    if s == [] {
      if t != [] { assert false; }
    } else {
      var v := key(s[0]);
      HeadOfKey(s, key, v);
      assert WithKey(t, key, v) != [];
      WithKeyMembers(t, key, v);
      assert WithKey(t, key, v)[0] in t;
      WithKeyMembers(s, key, key(t[0]));
      HeadOfKey(t, key, key(t[0]));
      assert WithKey(s, key, key(t[0]))[0] in s;
      assert key(t[0]) == v;
      forall u ensures WithKey(s[1..], key, u) == WithKey(t[1..], key, u) {
        WithKeyTail(s, key, u);
        WithKeyTail(t, key, u);
      }
      assert s[0] == WithKey(s, key, v)[0] == WithKey(t, key, v)[0] == t[0];
      StableSortIsUnique(s[1..], t[1..], key);
    }
  }

  lemma {:induction false} WithKeyConcat<T>(a: seq<T>, b: seq<T>, key: T -> nat, v: nat)
    ensures WithKey(a + b, key, v) == WithKey(a, key, v) + WithKey(b, key, v)
  {
    if a == [] {
      assert a + b == b;
      assert [] + WithKey(b, key, v) == WithKey(b, key, v);
    } else {
      var first := if key(a[0]) == v then [a[0]] else [];
      assert (a + b)[0] == a[0] && (a + b)[1..] == a[1..] + b;
      WithKeyConcat(a[1..], b, key, v);
      assert first + (WithKey(a[1..], key, v) + WithKey(b, key, v)) == (first + WithKey(a[1..], key, v)) + WithKey(b, key, v);
    }
  }

  /** No two elements have the same id. */
  ghost predicate OneToOne<T>(s: seq<T>, id: T -> string) {
    forall i, j :: 0 <= i < j < |s| ==> id(s[i]) != id(s[j])
  }

  lemma {:induction false} InsertKeepsOneToOne<T>(x: T, s: seq<T>, key: T -> nat, id: T -> string)
    requires OneToOne(s, id) && forall y :: y in s ==> id(y) != id(x)
    ensures OneToOne(InsertByKey(x, s, key), id)
  {
    if s != [] && key(x) > key(s[0]) {
      var r := InsertByKey(x, s[1..], key);
      InsertKeepsOneToOne(x, s[1..], key, id);
      InsertedMembers(x, s[1..], key);
      forall y | y in r ensures id(s[0]) != id(y) {
        assert y in multiset(r);
        assert y == x || y in s[1..];
      }
    }
  }

  lemma {:induction false} SortKeepsOneToOne<T>(s: seq<T>, key: T -> nat, id: T -> string)
    requires OneToOne(s, id)
    ensures OneToOne(SortByKey(s, key), id)
  {
    if s != [] {
      var r := SortByKey(s[1..], key);
      SortKeepsOneToOne(s[1..], key, id);
      SortByKeyIsStable(s[1..], key);
      forall y | y in r ensures id(y) != id(s[0]) {
        assert y in multiset(r);
        assert y in s[1..];
      }
      InsertKeepsOneToOne(s[0], r, key, id);
    }
  }
}
