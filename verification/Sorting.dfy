// The standard library's sort, which the engine calls on seats, levels and winners. Only what
// a sort promises is used: the same elements, in order of the key.

module Sorting {

  predicate Ordered<T>(s: seq<T>, key: T -> int) {
    forall i, j :: 0 <= i < j < |s| ==> key(s[i]) <= key(s[j])
  }

  function Insert<T>(x: T, s: seq<T>, key: T -> int): seq<T> {
    if s == [] || key(x) <= key(s[0]) then [x] + s else [s[0]] + Insert(x, s[1..], key)
  }

  function SortBy<T>(s: seq<T>, key: T -> int): seq<T> {
    if s == [] then [] else Insert(s[0], SortBy(s[1..], key), key)
  }

  lemma {:induction false} InsertKeeps<T>(x: T, s: seq<T>, key: T -> int)
    ensures multiset(Insert(x, s, key)) == multiset(s) + multiset{x}
  {
    if s != [] && key(x) > key(s[0]) {
      InsertKeeps(x, s[1..], key);
      assert s == [s[0]] + s[1..];
    }
  }

  lemma {:induction false} SortKeeps<T>(s: seq<T>, key: T -> int)
    ensures multiset(SortBy(s, key)) == multiset(s)
  {
    if s != [] {
      SortKeeps(s[1..], key);
      InsertKeeps(s[0], SortBy(s[1..], key), key);
      assert s == [s[0]] + s[1..];
    }
  }

  lemma {:induction false} SortElements<T>(s: seq<T>, key: T -> int)
    ensures var r := SortBy(s, key); |r| == |s| && forall y :: y in r <==> y in s
  {
    var r := SortBy(s, key);
    SortKeeps(s, key);
    assert |multiset(r)| == |r| && |multiset(s)| == |s|;
    forall y ensures y in r <==> y in s {
      assert y in r <==> y in multiset(r);
      assert y in s <==> y in multiset(s);
    }
  }

  lemma {:induction false} InsertBehind<T>(x: T, s: seq<T>, key: T -> int, least: int)
    requires least <= key(x) && forall y :: y in s ==> least <= key(y)
    ensures forall y :: y in Insert(x, s, key) ==> least <= key(y)
  {
    if s != [] && key(x) > key(s[0]) { InsertBehind(x, s[1..], key, least); }
  }

  lemma {:induction false} InsertOrders<T>(x: T, s: seq<T>, key: T -> int)
    requires Ordered(s, key)
    ensures Ordered(Insert(x, s, key), key)
  {
    if s != [] && key(x) > key(s[0]) {
      var rest := s[1..];
      InsertOrders(x, rest, key);
      InsertBehind(x, rest, key, key(s[0]));
      var tail := Insert(x, rest, key);
      assert forall j :: 0 <= j < |tail| ==> tail[j] in tail;
    }
  }

  lemma {:induction false} SortOrders<T>(s: seq<T>, key: T -> int)
    ensures Ordered(SortBy(s, key), key)
  {
    if s != [] {
      SortOrders(s[1..], key);
      InsertOrders(s[0], SortBy(s[1..], key), key);
    }
  }

  // Sorting what is already in order changes nothing.
  lemma {:induction false} SortedAlready<T>(s: seq<T>, key: T -> int)
    requires Ordered(s, key)
    ensures SortBy(s, key) == s
  {
    if s != [] {
      SortedAlready(s[1..], key);
      assert s == [s[0]] + s[1..];
    }
  }

  lemma {:induction false} SmallestFirst<T>(a: seq<T>, x: T, key: T -> int)
    requires Ordered(a, key) && x in multiset(a)
    ensures a != [] && key(a[0]) <= key(x)
  {
    assert x in a;
    var i :| 0 <= i < |a| && a[i] == x;
  }

  lemma {:induction false} LowerKeyFirst<T>(s: seq<T>, key: T -> int, i: nat, j: nat)
    requires Ordered(s, key) && i < |s| && j < |s| && key(s[i]) < key(s[j])
    ensures i < j
  {
  }

  predicate Rising<T>(s: seq<T>, key: T -> int) {
    forall i, j :: 0 <= i < j < |s| ==> key(s[i]) < key(s[j])
  }

  lemma {:induction false} SameFirst<T>(a: seq<T>, b: seq<T>, key: T -> int)
    requires Rising(a, key) && Ordered(b, key) && multiset(a) == multiset(b) && a != []
    ensures b != [] && a[0] == b[0]
  {
    assert a[0] in multiset(b);
    SmallestFirst(b, a[0], key);
    assert b[0] in multiset(a);
    var i :| 0 <= i < |a| && a[i] == b[0];
  }

  lemma {:induction false} SameRest<T>(a: seq<T>, b: seq<T>)
    requires multiset(a) == multiset(b) && a != [] && b != [] && a[0] == b[0]
    ensures multiset(a[1..]) == multiset(b[1..])
  {
    assert a == [a[0]] + a[1..] && b == [b[0]] + b[1..];
    assert multiset(a[1..]) == multiset(a) - multiset{a[0]};
    assert multiset(b[1..]) == multiset(b) - multiset{b[0]};
  }

  // When no two elements share a key there is only one order.
  lemma {:induction false} OneOrder<T>(a: seq<T>, b: seq<T>, key: T -> int)
    requires Rising(a, key) && Ordered(b, key) && multiset(a) == multiset(b)
    ensures a == b
    decreases |a|
  {
    if a == [] {
      assert |multiset(b)| == |b|;
    } else {
      SameFirst(a, b, key);
      SameRest(a, b);
      OneOrder(a[1..], b[1..], key);
      assert a == [a[0]] + a[1..] && b == [b[0]] + b[1..];
    }
  }
}
