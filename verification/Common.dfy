/** Small vocabulary shared by every component model. */
module Common {

  datatype Option<+T> = None | Some(value: T)

  /** A Rust `u8`. */
  type Byte = b: int | 0 <= b < 256

  /** Four big-endian bytes as a `u32`. */
  function Uint32(a: Byte, b: Byte, c: Byte, d: Byte): nat
  {
    a as int * 0x100_0000 + b as int * 0x1_0000 + c as int * 0x100 + d
  }

  /** The concatenation of a sequence of byte strings. */
  function Concat(parts: seq<seq<Byte>>): seq<Byte>
  {
    if parts == [] then [] else parts[0] + Concat(parts[1..])
  }

  lemma ConcatCons(head: seq<Byte>, tail: seq<seq<Byte>>)
    ensures Concat([head] + tail) == head + Concat(tail)
  {
    assert ([head] + tail)[1..] == tail;
  }

  lemma {:induction false} ConcatAppend(a: seq<seq<Byte>>, b: seq<seq<Byte>>)
    ensures Concat(a + b) == Concat(a) + Concat(b)
  {
    if a == [] {
      assert a + b == b;
    } else {
      assert (a + b)[1..] == a[1..] + b;
      ConcatAppend(a[1..], b);
    }
  }

  lemma ConcatLast(parts: seq<seq<Byte>>)
    requires parts != []
    ensures Concat(parts) == Concat(parts[..|parts| - 1]) + parts[|parts| - 1]
  {
    var init, last := parts[..|parts| - 1], [parts[|parts| - 1]];
    assert parts == init + last;
    ConcatAppend(init, last);
    assert Concat(last) == last[0];
  }

  lemma Associate<T>(a: seq<T>, b: seq<T>, c: seq<T>)
    ensures a + (b + c) == a + b + c
  {
  }

  lemma Unsnoc<T>(s: seq<T>) returns (init: seq<T>, last: T)
    requires s != []
    ensures s == init + [last] && |init| < |s|
  {
    init, last := s[..|s| - 1], s[|s| - 1];
  }

  /** Cutting a concatenation within its first part. */
  lemma CutWithin<T>(a: seq<T>, b: seq<T>, n: nat)
    requires n <= |a|
    ensures (a + b)[..n] == a[..n] && (a + b)[n..] == a[n..] + b
  {
  }

  lemma DropTwice<T>(s: seq<T>, m: nat, n: nat)
    requires m + n <= |s|
    ensures s[m..][n..] == s[m + n..]
  {
  }

  /** `a` is what is left of `b` when some of its elements are dropped. */
  predicate Within<T(==)>(a: seq<T>, b: seq<T>)
    decreases |b|, 1
  {
    a == [] || (b != [] && (WithinLast(a, b) || Within(a, b[..|b| - 1])))
  }

  predicate WithinLast<T(==)>(a: seq<T>, b: seq<T>)
    requires a != [] && b != []
    decreases |b|, 0
  {
    a[|a| - 1] == b[|b| - 1] && Within(a[..|a| - 1], b[..|b| - 1])
  }

  lemma WithinNext<T>(a: seq<T>, b: seq<T>, x: T)
    requires Within(a, b)
    ensures Within(a + [x], b + [x]) && Within(a, b + [x])
  {
    assert (a + [x])[..|a|] == a && (b + [x])[..|b|] == b;
  }

  lemma {:induction false} WithinMore<T>(a: seq<T>, b: seq<T>, c: seq<T>)
    requires Within(a, b)
    ensures Within(a, b + c)
    decreases |c|
  {
    if c == [] {
      assert b + c == b;
    } else {
      var init, last := c[..|c| - 1], c[|c| - 1];
      WithinMore(a, b, init);
      WithinNext(a, b + init, last);
      assert c == init + [last];
      Associate(b, init, [last]);
    }
  }

  ghost predicate NoDuplicates<T(!new)>(s: seq<T>)
  {
    forall i, j :: 0 <= i < j < |s| ==> s[i] != s[j]
  }

  lemma NoDuplicatesAppend<T(!new)>(a: seq<T>, b: seq<T>)
    requires NoDuplicates(a) && NoDuplicates(b)
    requires forall x :: x in a ==> x !in b
    ensures NoDuplicates(a + b)
  {
    forall i, j | 0 <= i < j < |a + b| ensures (a + b)[i] != (a + b)[j] {
      if i < |a| <= j {
        assert a[i] in a && b[j - |a|] in b;
      }
    }
  }

  /** A sequence without the occurrences of one value: what `retain` leaves. */
  function Without<T(==)>(q: seq<T>, t: T): seq<T>
  {
    if q == [] then [] else (if q[0] == t then [] else [q[0]]) + Without(q[1..], t)
  }

  lemma {:induction false} WithoutMembers<T(!new)>(q: seq<T>, t: T)
    ensures forall x :: x in Without(q, t) <==> x in q && x != t
    ensures t !in q ==> Without(q, t) == q
    ensures NoDuplicates(q) ==> NoDuplicates(Without(q, t))
  {
    if q != [] {
      WithoutMembers(q[1..], t);
      assert q == [q[0]] + q[1..];
      if NoDuplicates(q) {
        assert q[0] !in q[1..];
        var tail := Without(q[1..], t);
        assert forall i :: 0 <= i < |tail| ==> tail[i] in q[1..];
      }
    }
  }

  /** `order` lists the members of `keys`, each exactly once: one possible iteration order of a hash table. */
  ghost predicate Enumerates<T(!new)>(order: seq<T>, keys: set<T>)
  {
    NoDuplicates(order) && forall k :: k in order <==> k in keys
  }
}
