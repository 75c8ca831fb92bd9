/** A stable sort by a numeric key, standing in for the standard library's. */
module StableSort {
  import opened Common

  /** The elements with one key, in order. */
  function Only<D>(q: seq<D>, key: D -> nat, k: nat): seq<D>
  {
    if q == [] then [] else (if key(q[0]) == k then [q[0]] else []) + Only(q[1..], key, k)
  }

  ghost predicate Sorted<D>(q: seq<D>, key: D -> nat)
  {
    forall i, j :: 0 <= i < j < |q| ==> key(q[i]) <= key(q[j])
  }

  /** Puts an element in front of the first one with a key that is not smaller. */
  function Insert<D>(d: D, q: seq<D>, key: D -> nat): seq<D>
  {
    if q == [] || key(d) <= key(q[0]) then [d] + q else [q[0]] + Insert(d, q[1..], key)
  }

  function SortByKey<D>(q: seq<D>, key: D -> nat): seq<D>
  {
    if q == [] then [] else Insert(q[0], SortByKey(q[1..], key), key)
  }

  lemma {:induction false} OnlyAppend<D>(a: seq<D>, b: seq<D>, key: D -> nat, k: nat)
    ensures Only(a + b, key, k) == Only(a, key, k) + Only(b, key, k)
  {
    if a == [] {
      assert a + b == b;
    } else {
      assert (a + b)[1..] == a[1..] + b;
      OnlyAppend(a[1..], b, key, k);
      Associate(if key(a[0]) == k then [a[0]] else [], Only(a[1..], key, k), Only(b, key, k));
    }
  }

  lemma {:induction false} InsertMembers<D(!new)>(d: D, q: seq<D>, key: D -> nat)
    ensures forall x :: x in Insert(d, q, key) <==> x == d || x in q
  {
    if !(q == [] || key(d) <= key(q[0])) {
      assert q == [q[0]] + q[1..];
      InsertMembers(d, q[1..], key);
    }
  }

  lemma {:induction false} InsertSorted<D(!new)>(d: D, q: seq<D>, key: D -> nat)
    requires Sorted(q, key)
    ensures Sorted(Insert(d, q, key), key)
  {
    if q == [] || key(d) <= key(q[0]) {
    } else {
      InsertSorted(d, q[1..], key);
      InsertMembers(d, q[1..], key);
      var tail := Insert(d, q[1..], key);
      forall i | 0 <= i < |tail| ensures key(q[0]) <= key(tail[i]) {
        assert tail[i] in tail;
      }
    }
  }

  lemma {:induction false} InsertOnly<D>(d: D, q: seq<D>, key: D -> nat, k: nat)
    ensures Only(Insert(d, q, key), key, k) == (if key(d) == k then [d] else []) + Only(q, key, k)
  {
    if q == [] || key(d) <= key(q[0]) {
      OnlyCons(d, q, key, k);
    } else {
      var tail := q[1..];
      InsertOnly(d, tail, key, k);
      OnlyCons(q[0], Insert(d, tail, key), key, k);
      OnlySwap(d, q[0], Only(tail, key, k), key, k);
    }
  }

  /** Elements with different keys do not both belong to one group. */
  lemma OnlySwap<D>(d: D, e: D, rest: seq<D>, key: D -> nat, k: nat)
    requires key(d) != key(e)
    ensures var one, two := if key(d) == k then [d] else [], if key(e) == k then [e] else [];
            two + (one + rest) == one + (two + rest)
  {
    assert [] + rest == rest;
  }

  lemma OnlyCons<D>(d: D, q: seq<D>, key: D -> nat, k: nat)
    ensures Only([d] + q, key, k) == (if key(d) == k then [d] else []) + Only(q, key, k)
  {
    assert ([d] + q)[1..] == q;
  }

  lemma {:induction false} InsertKeepsAll<D>(d: D, q: seq<D>, key: D -> nat)
    ensures multiset(Insert(d, q, key)) == multiset(q) + multiset{d}
  {
    if !(q == [] || key(d) <= key(q[0])) {
      InsertKeepsAll(d, q[1..], key);
      assert q == [q[0]] + q[1..];
    }
  }

  /** The sort loses and repeats nothing. */
  lemma {:induction false} SortKeepsAll<D>(q: seq<D>, key: D -> nat)
    ensures multiset(SortByKey(q, key)) == multiset(q)
  {
    if q != [] {
      SortKeepsAll(q[1..], key);
      InsertKeepsAll(q[0], SortByKey(q[1..], key), key);
      assert q == [q[0]] + q[1..];
    }
  }

  /** The sort is ordered and stable: the elements with one key stay as they were, in their order. */
  lemma {:induction false} SortSpec<D(!new)>(q: seq<D>, key: D -> nat, k: nat)
    ensures Sorted(SortByKey(q, key), key)
    ensures forall x :: x in SortByKey(q, key) <==> x in q
    ensures Only(SortByKey(q, key), key, k) == Only(q, key, k)
  {
    if q != [] {
      SortSpec(q[1..], key, k);
      InsertMembers(q[0], SortByKey(q[1..], key), key);
      InsertSorted(q[0], SortByKey(q[1..], key), key);
      InsertOnly(q[0], SortByKey(q[1..], key), key, k);
      assert q == [q[0]] + q[1..];
    }
  }
}
