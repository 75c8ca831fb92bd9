/** The router's difference engine: what changed between two snapshots of its inputs, reported per key. */
module IncrementalDiff {
  import opened Common

  datatype Change<K, V> = Added(key: K, value: V) | Removed(key: K, value: V) | Changed(key: K, before: V, after: V)

  /** The three callbacks of an incremental aggregator; each may decline to report. */
  datatype Aggregator<!I, !O> = Aggregator(
    added: I -> Option<O>,
    removed: I -> Option<O>,
    changed: (I, I) -> Option<O>)

  function Get<K, V>(m: map<K, V>, k: K): Option<V> { if k in m then Some(m[k]) else None }

  function UpsertAt<K, V(==)>(current: map<K, V>, prev: map<K, V>, k: K): seq<Change<K, V>>
  {
    match (Get(current, k), Get(prev, k))
    case (Some(v), None) => [Added(k, v)]
    case (Some(v), Some(u)) => if u != v then [Changed(k, u, v)] else []
    case _ => []
  }

  /** Additions and changes, in the iteration order of the current snapshot. */
  function Upserts<K, V(==)>(current: map<K, V>, prev: map<K, V>, order: seq<K>): seq<Change<K, V>>
  {
    if order == [] then [] else UpsertAt(current, prev, order[0]) + Upserts(current, prev, order[1..])
  }

  function RemovalAt<K, V>(current: map<K, V>, prev: map<K, V>, k: K): seq<Change<K, V>>
  {
    if k in prev && k !in current then [Removed(k, prev[k])] else []
  }

  function Removals<K, V>(current: map<K, V>, prev: map<K, V>, order: seq<K>): seq<Change<K, V>>
  {
    if order == [] then [] else RemovalAt(current, prev, order[0]) + Removals(current, prev, order[1..])
  }

  function Changes<K, V(==)>(current: map<K, V>, prev: map<K, V>, order: seq<K>, prevOrder: seq<K>): seq<Change<K, V>>
  {
    Upserts(current, prev, order) + Removals(current, prev, prevOrder)
  }

  function Report<K, V, I, O>(agg: Aggregator<I, O>, input: (K, V) -> I, c: Change<K, V>): seq<O>
  {
    var out := match c
      case Added(k, v) => agg.added(input(k, v))
      case Removed(k, v) => agg.removed(input(k, v))
      case Changed(k, u, v) => agg.changed(input(k, u), input(k, v));
    if out.Some? then [out.value] else []
  }

  function Reports<K, V, I, O>(agg: Aggregator<I, O>, input: (K, V) -> I, cs: seq<Change<K, V>>): seq<O>
  {
    if cs == [] then [] else Report(agg, input, cs[0]) + Reports(agg, input, cs[1..])
  }

  lemma {:induction false} ReportsAppend<K, V, I, O>(agg: Aggregator<I, O>, input: (K, V) -> I,
                                                     a: seq<Change<K, V>>, b: seq<Change<K, V>>)
    ensures Reports(agg, input, a + b) == Reports(agg, input, a) + Reports(agg, input, b)
  {
    if a == [] {
      assert a + b == b;
    } else {
      assert (a + b)[1..] == a[1..] + b;
      ReportsAppend(agg, input, a[1..], b);
      Associate(Report(agg, input, a[0]), Reports(agg, input, a[1..]), Reports(agg, input, b));
    }
  }

  /** The diff, for any aggregator: it reports the list of changes, in order. */
  method Diff<K(==), V(==), I, O>(current: map<K, V>, prev: map<K, V>, agg: Aggregator<I, O>, input: (K, V) -> I,
                                  order: seq<K>, prevOrder: seq<K>) returns (outputs: seq<O>)
    ensures outputs == Reports(agg, input, Changes(current, prev, order, prevOrder))
  {
    outputs := DiffUpserts(current, prev, agg, input, order);
    var removals := DiffRemovals(current, prev, agg, input, prevOrder);
    ReportsAppend(agg, input, Upserts(current, prev, order), Removals(current, prev, prevOrder));
    outputs := outputs + removals;
  }

  method DiffUpserts<K(==), V(==), I, O>(current: map<K, V>, prev: map<K, V>, agg: Aggregator<I, O>,
                                         input: (K, V) -> I, order: seq<K>) returns (outputs: seq<O>)
    ensures outputs == Reports(agg, input, Upserts(current, prev, order))
  {
    outputs := [];
    for i := 0 to |order|
      invariant outputs + Reports(agg, input, Upserts(current, prev, order[i..]))
                == Reports(agg, input, Upserts(current, prev, order))
    {
      var k := order[i];
      assert order[i..][0] == k && order[i..][1..] == order[i + 1..];
      ReportsAppend(agg, input, UpsertAt(current, prev, k), Upserts(current, prev, order[i + 1..]));
      var out: Option<O> := None;
      if k in current {
        if k !in prev {
          out := agg.added(input(k, current[k]));
          ReportsOne(agg, input, Added(k, current[k]));
        } else if prev[k] != current[k] {
          out := agg.changed(input(k, prev[k]), input(k, current[k]));
          ReportsOne(agg, input, Changed(k, prev[k], current[k]));
        }
      }
      var more := if out.Some? then [out.value] else [];
      assert Reports(agg, input, UpsertAt(current, prev, k)) == more;
      Associate(outputs, more, Reports(agg, input, Upserts(current, prev, order[i + 1..])));
      outputs := outputs + more;
    }
  }

  method DiffRemovals<K(==), V(==), I, O>(current: map<K, V>, prev: map<K, V>, agg: Aggregator<I, O>,
                                          input: (K, V) -> I, order: seq<K>) returns (outputs: seq<O>)
    ensures outputs == Reports(agg, input, Removals(current, prev, order))
  {
    outputs := [];
    for i := 0 to |order|
      invariant outputs + Reports(agg, input, Removals(current, prev, order[i..]))
                == Reports(agg, input, Removals(current, prev, order))
    {
      var k := order[i];
      assert order[i..][0] == k && order[i..][1..] == order[i + 1..];
      ReportsAppend(agg, input, RemovalAt(current, prev, k), Removals(current, prev, order[i + 1..]));
      var out: Option<O> := None;
      if k in prev && k !in current {
        out := agg.removed(input(k, prev[k]));
        ReportsOne(agg, input, Removed(k, prev[k]));
      }
      var more := if out.Some? then [out.value] else [];
      assert Reports(agg, input, RemovalAt(current, prev, k)) == more;
      Associate(outputs, more, Reports(agg, input, Removals(current, prev, order[i + 1..])));
      outputs := outputs + more;
    }
  }

  lemma ReportsOne<K, V, I, O>(agg: Aggregator<I, O>, input: (K, V) -> I, c: Change<K, V>)
    ensures Reports(agg, input, [c]) == Report(agg, input, c)
  {
    assert [c][1..] == [];
  }

  // ---------------------------------------------------------------------
  // Replaying changes
  // ---------------------------------------------------------------------

  function Replay<K, V>(m: map<K, V>, cs: seq<Change<K, V>>): map<K, V>
    decreases |cs|
  {
    if cs == [] then m
    else
      Replay(match cs[0]
             case Added(k, v) => m[k := v]
             case Removed(k, v) => m - {k}
             case Changed(k, u, v) => m[k := v],
             cs[1..])
  }

  lemma {:induction false} ReplayAppend<K, V>(m: map<K, V>, a: seq<Change<K, V>>, b: seq<Change<K, V>>)
    ensures Replay(m, a + b) == Replay(Replay(m, a), b)
    decreases |a|
  {
    if a == [] {
      assert a + b == b;
    } else {
      assert (a + b)[1..] == a[1..] + b;
      ReplayAppend(match a[0]
                   case Added(k, v) => m[k := v]
                   case Removed(k, v) => m - {k}
                   case Changed(k, u, v) => m[k := v],
                   a[1..], b);
    }
  }

  lemma {:induction false} ReplayUpserts<K(!new), V>(m: map<K, V>, current: map<K, V>, prev: map<K, V>, order: seq<K>)
    requires forall k :: k in order ==> k in current
    requires forall k :: k in prev ==> Get(m, k) == Get(prev, k) || Get(m, k) == Get(current, k)
    ensures forall k :: Get(Replay(m, Upserts(current, prev, order)), k)
                        == if k in order && Get(prev, k) != Get(current, k) then Get(current, k) else Get(m, k)
    decreases |order|
  {
    if order != [] {
      var k := order[0];
      var rest := Upserts(current, prev, order[1..]);
      var head := if k !in prev then [Added(k, current[k])]
                  else if prev[k] != current[k] then [Changed(k, prev[k], current[k])] else [];
      var m' := if head == [] then m else m[k := current[k]];
      assert order == [k] + order[1..];
      assert Upserts(current, prev, order) == head + rest;
      ReplayAppend(m, head, rest);
      assert Replay(m, head) == m' by {
        if head != [] {
          assert head[1..] == [];
        }
      }
      ReplayUpserts(m', current, prev, order[1..]);
    }
  }

  lemma {:induction false} ReplayRemovals<K(!new), V>(m: map<K, V>, current: map<K, V>, prev: map<K, V>, order: seq<K>)
    ensures forall k :: Get(Replay(m, Removals(current, prev, order)), k)
                        == if k in order && k in prev && k !in current then None else Get(m, k)
    decreases |order|
  {
    if order != [] {
      var k := order[0];
      var rest := Removals(current, prev, order[1..]);
      var head := if k in prev && k !in current then [Removed(k, prev[k])] else [];
      var m' := if head == [] then m else m - {k};
      assert order == [k] + order[1..];
      assert Removals(current, prev, order) == head + rest;
      ReplayAppend(m, head, rest);
      assert Replay(m, head) == m' by {
        if head != [] {
          assert head[1..] == [];
        }
      }
      ReplayRemovals(m', current, prev, order[1..]);
    }
  }

  lemma SameMap<K(!new), V>(a: map<K, V>, b: map<K, V>)
    requires forall k :: Get(a, k) == Get(b, k)
    ensures a == b
  {
    forall k ensures (k in a <==> k in b) && (k in a ==> a[k] == b[k]) {
      assert Get(a, k) == Get(b, k);
    }
  }

  /** Replaying the changes on the previous snapshot gives the current one. */
  lemma ReplayGivesCurrent<K(!new), V>(current: map<K, V>, prev: map<K, V>, order: seq<K>, prevOrder: seq<K>)
    requires Enumerates(order, current.Keys) && Enumerates(prevOrder, prev.Keys)
    ensures Replay(prev, Changes(current, prev, order, prevOrder)) == current
  {
    var upserts, removals := Upserts(current, prev, order), Removals(current, prev, prevOrder);
    var mid := Replay(prev, upserts);
    ReplayAppend(prev, upserts, removals);
    ReplayUpserts(prev, current, prev, order);
    ReplayRemovals(mid, current, prev, prevOrder);
    forall k ensures Get(Replay(mid, removals), k) == Get(current, k) {
      assert Get(mid, k) == if k in order && Get(prev, k) != Get(current, k) then Get(current, k) else Get(prev, k);
    }
    SameMap(Replay(mid, removals), current);
  }

  // ---------------------------------------------------------------------
  // One change per differing key
  // ---------------------------------------------------------------------

  function CountAbout<K(==), V>(cs: seq<Change<K, V>>, k: K): nat
  {
    if cs == [] then 0 else (if cs[0].key == k then 1 else 0) + CountAbout(cs[1..], k)
  }

  lemma {:induction false} CountAppend<K, V>(a: seq<Change<K, V>>, b: seq<Change<K, V>>, k: K)
    ensures CountAbout(a + b, k) == CountAbout(a, k) + CountAbout(b, k)
  {
    if a == [] {
      assert a + b == b;
    } else {
      assert (a + b)[1..] == a[1..] + b;
      CountAppend(a[1..], b, k);
    }
  }

  lemma CountOne<K, V>(c: Change<K, V>, k: K)
    ensures CountAbout([c], k) == if c.key == k then 1 else 0
  {
    assert [c][1..] == [];
  }

  lemma {:induction false} CountUpserts<K(!new), V>(current: map<K, V>, prev: map<K, V>, order: seq<K>, k: K)
    requires NoDuplicates(order) && forall j :: j in order ==> j in current
    ensures CountAbout(Upserts(current, prev, order), k)
            == if k in order && Get(prev, k) != Get(current, k) then 1 else 0
    decreases |order|
  {
    if order != [] {
      var j := order[0];
      var rest := Upserts(current, prev, order[1..]);
      assert order == [j] + order[1..] && j !in order[1..];
      CountUpserts(current, prev, order[1..], k);
      if j !in prev {
        CountAppend([Added(j, current[j])], rest, k);
        CountOne(Added(j, current[j]), k);
      } else if prev[j] != current[j] {
        CountAppend([Changed(j, prev[j], current[j])], rest, k);
        CountOne(Changed(j, prev[j], current[j]), k);
      } else {
        assert Upserts(current, prev, order) == rest;
      }
    }
  }

  lemma {:induction false} CountRemovals<K(!new), V>(current: map<K, V>, prev: map<K, V>, order: seq<K>, k: K)
    requires NoDuplicates(order)
    ensures CountAbout(Removals(current, prev, order), k) == if k in order && k in prev && k !in current then 1 else 0
    decreases |order|
  {
    if order != [] {
      var j := order[0];
      var rest := Removals(current, prev, order[1..]);
      assert order == [j] + order[1..] && j !in order[1..];
      CountRemovals(current, prev, order[1..], k);
      if j in prev && j !in current {
        CountAppend([Removed(j, prev[j])], rest, k);
        CountOne(Removed(j, prev[j]), k);
      } else {
        assert Removals(current, prev, order) == rest;
      }
    }
  }

  /** Exactly one change for each key on which the snapshots differ, and none for the others. */
  lemma OneChangePerDifference<K(!new), V>(current: map<K, V>, prev: map<K, V>, order: seq<K>, prevOrder: seq<K>, k: K)
    requires Enumerates(order, current.Keys) && Enumerates(prevOrder, prev.Keys)
    ensures CountAbout(Changes(current, prev, order, prevOrder), k) == if Get(prev, k) == Get(current, k) then 0 else 1
  {
    CountUpserts(current, prev, order, k);
    CountRemovals(current, prev, prevOrder, k);
    CountAppend(Upserts(current, prev, order), Removals(current, prev, prevOrder), k);
  }

  /** Nothing is reported exactly when the snapshots are equal. */
  lemma NoChangeIffEqual<K(!new), V>(current: map<K, V>, prev: map<K, V>, order: seq<K>, prevOrder: seq<K>)
    requires Enumerates(order, current.Keys) && Enumerates(prevOrder, prev.Keys)
    ensures Changes(current, prev, order, prevOrder) == [] <==> current == prev
  {
    var cs := Changes(current, prev, order, prevOrder);
    if cs == [] {
      ReplayGivesCurrent(current, prev, order, prevOrder);
    } else {
      OneChangePerDifference(current, prev, order, prevOrder, cs[0].key);
      assert CountAbout(cs, cs[0].key) >= 1;
    }
  }

  /** The elements that satisfy `keep`, in order. */
  function Picked<K>(s: seq<K>, keep: K -> bool): seq<K>
  {
    if s == [] then [] else (if keep(s[0]) then [s[0]] else []) + Picked(s[1..], keep)
  }

  function KeysOf<K, V>(cs: seq<Change<K, V>>): (ks: seq<K>)
    ensures |ks| == |cs|
  {
    seq(|cs|, i requires 0 <= i < |cs| => cs[i].key)
  }

  lemma {:induction false} UpsertKeys<K(!new), V(!new)>(current: map<K, V>, prev: map<K, V>, order: seq<K>)
    ensures KeysOf(Upserts(current, prev, order))
            == Picked(order, k => k in current && Get(prev, k) != Get(current, k))
    ensures forall i :: 0 <= i < |Upserts(current, prev, order)| ==> !Upserts(current, prev, order)[i].Removed?
  {
    if order != [] {
      UpsertKeys(current, prev, order[1..]);
    }
  }

  lemma {:induction false} RemovalKeys<K(!new), V(!new)>(current: map<K, V>, prev: map<K, V>, order: seq<K>)
    ensures KeysOf(Removals(current, prev, order)) == Picked(order, k => k in prev && k !in current)
    ensures forall i :: 0 <= i < |Removals(current, prev, order)| ==> Removals(current, prev, order)[i].Removed?
  {
    if order != [] {
      RemovalKeys(current, prev, order[1..]);
    }
  }

  /**
   * The order of a report: first the keys that are new or have another value, as the current snapshot lists them,
   * then the keys that are gone, as the previous snapshot lists them.
   */
  lemma ChangesInOrder<K(!new), V(!new)>(current: map<K, V>, prev: map<K, V>, order: seq<K>, prevOrder: seq<K>)
    ensures var cs := Changes(current, prev, order, prevOrder);
            var put := Picked(order, k => k in current && Get(prev, k) != Get(current, k));
            && KeysOf(cs) == put + Picked(prevOrder, k => k in prev && k !in current)
            && forall i :: 0 <= i < |cs| ==> (cs[i].Removed? <==> |put| <= i)
  {
    UpsertKeys(current, prev, order);
    RemovalKeys(current, prev, prevOrder);
  }

  // ---------------------------------------------------------------------
  // A sequence of snapshots
  // ---------------------------------------------------------------------

  /** A snapshot with its iteration order. */
  datatype Snapshot<K, V> = Snapshot(state: map<K, V>, order: seq<K>)

  function ChainChanges<K, V(==)>(snaps: seq<Snapshot<K, V>>): seq<Change<K, V>>
  {
    if |snaps| <= 1 then []
    else
      var n := |snaps|;
      ChainChanges(snaps[..n - 1])
      + Changes(snaps[n - 1].state, snaps[n - 2].state, snaps[n - 1].order, snaps[n - 2].order)
  }

  /** Replaying the reports of any sequence of snapshots on the first one gives the last one. */
  lemma {:induction false} ChainReplays<K(!new), V>(snaps: seq<Snapshot<K, V>>)
    requires snaps != [] && AllListed(snaps)
    ensures Replay(snaps[0].state, ChainChanges(snaps)) == snaps[|snaps| - 1].state
  {
    var n := |snaps|;
    if n > 1 {
      var init := snaps[..n - 1];
      assert init[0] == snaps[0] && init[|init| - 1] == snaps[n - 2];
      assert AllListed(init) by {
        assert forall i :: 0 <= i < |init| ==> init[i] == snaps[i];
      }
      ChainReplays(init);
      assert IsListed(snaps[n - 2]) && IsListed(snaps[n - 1]);
      ReplayOneMore(snaps[0].state, ChainChanges(init), snaps[n - 2], snaps[n - 1]);
    }
  }

  ghost predicate IsListed<K(!new), V>(s: Snapshot<K, V>) { Enumerates(s.order, s.state.Keys) }

  ghost predicate AllListed<K(!new), V>(snaps: seq<Snapshot<K, V>>)
  {
    forall i :: 0 <= i < |snaps| ==> IsListed(snaps[i])
  }

  lemma ReplayOneMore<K(!new), V>(m: map<K, V>, cs: seq<Change<K, V>>, before: Snapshot<K, V>, after: Snapshot<K, V>)
    requires IsListed(before) && IsListed(after)
    requires Replay(m, cs) == before.state
    ensures Replay(m, cs + Changes(after.state, before.state, after.order, before.order)) == after.state
  {
    ReplayAppend(m, cs, Changes(after.state, before.state, after.order, before.order));
    ReplayGivesCurrent(after.state, before.state, after.order, before.order);
  }

  /** An aggregator that reports every change, and what its output stands for. */
  function Reporter<K, V>(): Aggregator<(K, V), Change<K, V>>
  {
    Aggregator((i: (K, V)) => Some(Added(i.0, i.1)),
               (i: (K, V)) => Some(Removed(i.0, i.1)),
               (i: (K, V), j: (K, V)) => Some(Changed(i.0, i.1, j.1)))
  }

  lemma {:induction false} ReporterReportsAll<K, V>(cs: seq<Change<K, V>>)
    ensures Reports(Reporter(), (k: K, v: V) => (k, v), cs) == cs
  {
    if cs != [] {
      ReporterReportsAll(cs[1..]);
    }
  }
}

/** Step-by-step propagation: deliveries handed out one group at a time. */
module ManualPropagate {
  import opened Common
  import opened StableSort

  // ---------------------------------------------------------------------
  // Draining
  // ---------------------------------------------------------------------

  /** Where the last group starts: just after the last delivery with another key. */
  function GroupStart<D>(q: seq<D>, key: D -> nat, k: nat): (n: nat)
    ensures n <= |q|
  {
    if q == [] || key(q[|q| - 1]) != k then |q| else GroupStart(q[..|q| - 1], key, k)
  }

  lemma {:induction false} GroupStartSpec<D>(q: seq<D>, key: D -> nat, k: nat)
    ensures var n := GroupStart(q, key, k);
            && (forall i :: n <= i < |q| ==> key(q[i]) == k)
            && (n > 0 ==> key(q[n - 1]) != k)
  {
    if q != [] && key(q[|q| - 1]) == k {
      GroupStartSpec(q[..|q| - 1], key, k);
    }
  }

  lemma {:induction false} OnlyAll<D>(q: seq<D>, key: D -> nat, k: nat)
    requires forall i :: 0 <= i < |q| ==> key(q[i]) == k
    ensures Only(q, key, k) == q
  {
    if q != [] {
      OnlyAll(q[1..], key, k);
    }
  }

  lemma {:induction false} OnlyNone<D>(q: seq<D>, key: D -> nat, k: nat)
    requires forall i :: 0 <= i < |q| ==> key(q[i]) != k
    ensures Only(q, key, k) == []
  {
    if q != [] {
      OnlyNone(q[1..], key, k);
    }
  }

  /** A split of the list where the front has smaller keys and the back has one key. */
  ghost predicate SplitAt<D>(q: seq<D>, key: D -> nat, n: nat, k: nat)
  {
    && n < |q|
    && (forall i :: 0 <= i < n ==> key(q[i]) < k)
    && (forall i :: n <= i < |q| ==> key(q[i]) == k)
  }

  lemma SplitIsGroup<D>(q: seq<D>, key: D -> nat, n: nat, k: nat)
    requires SplitAt(q, key, n, k)
    ensures q[n..] == Only(q, key, k)
  {
    OnlyAll(q[n..], key, k);
    OnlyNone(q[..n], key, k);
    OnlyAppend(q[..n], q[n..], key, k);
    assert q[..n] + q[n..] == q;
  }

  /** In a sorted list the last group is everything with the largest key; the rest has smaller keys. */
  lemma LastGroup<D>(q: seq<D>, key: D -> nat)
    requires Sorted(q, key) && q != []
    ensures SplitAt(q, key, GroupStart(q, key, key(q[|q| - 1])), key(q[|q| - 1]))
  {
    var k := key(q[|q| - 1]);
    var n := GroupStart(q, key, k);
    GroupStartSpec(q, key, k);
    forall i | 0 <= i < n ensures key(q[i]) < k {
      assert key(q[i]) <= key(q[n - 1]);
      assert key(q[n - 1]) <= k;
    }
  }

  function Groups<D>(q: seq<D>, key: D -> nat): seq<seq<D>>
    decreases |q|
  {
    if q == [] then []
    else
      var n := GroupStart(q, key, key(q[|q| - 1]));
      if n == |q| then [] else [q[n..]] + Groups(q[..n], key)
  }

  /** One group: not empty, and exactly the deliveries with its key in their original order. */
  ghost predicate ProperGroup<D>(g: seq<D>, input: seq<D>, key: D -> nat)
  {
    g != [] && g == Only(input, key, key(g[0]))
  }

  ghost predicate KeysDecrease<D>(groups: seq<seq<D>>, key: D -> nat)
  {
    forall i, j :: 0 <= i < j < |groups| && groups[i] != [] && groups[j] != [] ==> key(groups[j][0]) < key(groups[i][0])
  }

  ghost predicate Covers<D>(groups: seq<seq<D>>, input: seq<D>, key: D -> nat)
  {
    forall d :: d in input ==> exists i :: 0 <= i < |groups| && groups[i] != [] && key(groups[i][0]) == key(d)
  }

  function Flatten<D>(groups: seq<seq<D>>): seq<D>
  {
    if groups == [] then [] else groups[0] + Flatten(groups[1..])
  }

  /** What draining a sorted list gives. */
  ghost predicate Drained<D>(groups: seq<seq<D>>, q: seq<D>, key: D -> nat)
  {
    && (forall i :: 0 <= i < |groups| ==> ProperGroup(groups[i], q, key) && groups[i][0] in q)
    && KeysDecrease(groups, key)
    && Covers(groups, q, key)
  }

  lemma {:induction false} SortedGroups<D(!new)>(q: seq<D>, key: D -> nat)
    requires Sorted(q, key)
    ensures Drained(Groups(q, key), q, key)
    decreases |q|
  {
    if q != [] {
      var k := key(q[|q| - 1]);
      var n := GroupStart(q, key, k);
      LastGroup(q, key);
      SortedGroups(q[..n], key);
      DrainedMore(q, key, n, k, Groups(q[..n], key));
    }
  }

  lemma DrainedMore<D(!new)>(q: seq<D>, key: D -> nat, n: nat, k: nat, tail: seq<seq<D>>)
    requires SplitAt(q, key, n, k) && Drained(tail, q[..n], key)
    ensures Drained([q[n..]] + tail, q, key)
  {
    forall i | 0 <= i < |tail| ensures ProperGroup(tail[i], q, key) && key(tail[i][0]) < k && tail[i][0] in q {
      TailGroup(q, key, n, k, tail[i]);
    }
    HeadGroup(q, key, n, k);
    KeysDecreaseCons(q[n..], tail, key);
    CoverGroups(q, key, n, tail);
    var gs := [q[n..]] + tail;
    forall i | 0 <= i < |gs| ensures ProperGroup(gs[i], q, key) && gs[i][0] in q {
      assert gs[i] == if i == 0 then q[n..] else tail[i - 1];
    }
  }

  lemma HeadGroup<D(!new)>(q: seq<D>, key: D -> nat, n: nat, k: nat)
    requires SplitAt(q, key, n, k)
    ensures ProperGroup(q[n..], q, key) && q[n..][0] in q && key(q[n..][0]) == k
  {
    SplitIsGroup(q, key, n, k);
    assert q[n..][0] == q[n];
  }

  lemma TailGroup<D(!new)>(q: seq<D>, key: D -> nat, n: nat, k: nat, g: seq<D>)
    requires SplitAt(q, key, n, k) && ProperGroup(g, q[..n], key) && g[0] in q[..n]
    ensures ProperGroup(g, q, key) && key(g[0]) < k && g[0] in q
  {
    var j :| 0 <= j < n && q[..n][j] == g[0];
    assert q[j] == g[0];
    GroupOfWhole(q, key, n, g);
  }

  lemma KeysDecreaseCons<D>(g: seq<D>, tail: seq<seq<D>>, key: D -> nat)
    requires g != [] && KeysDecrease(tail, key)
    requires forall i :: 0 <= i < |tail| ==> tail[i] != [] && key(tail[i][0]) < key(g[0])
    ensures KeysDecrease([g] + tail, key)
  {
    var gs := [g] + tail;
    forall i, j | 0 <= i < j < |gs| && gs[i] != [] && gs[j] != [] ensures key(gs[j][0]) < key(gs[i][0]) {
      assert gs[j] == tail[j - 1];
    }
  }

  lemma GroupOfWhole<D(!new)>(q: seq<D>, key: D -> nat, n: nat, g: seq<D>)
    requires n < |q| && ProperGroup(g, q[..n], key) && key(g[0]) < key(q[n])
    requires forall i :: n <= i < |q| ==> key(q[i]) == key(q[n])
    ensures ProperGroup(g, q, key)
  {
    OnlyNone(q[n..], key, key(g[0]));
    OnlyAppend(q[..n], q[n..], key, key(g[0]));
    assert q == q[..n] + q[n..];
  }

  lemma CoverGroups<D(!new)>(q: seq<D>, key: D -> nat, n: nat, tail: seq<seq<D>>)
    requires n < |q| && forall i :: n <= i < |q| ==> key(q[i]) == key(q[n])
    requires Covers(tail, q[..n], key)
    ensures Covers([q[n..]] + tail, q, key)
  {
    var gs := [q[n..]] + tail;
    forall d | d in q ensures exists i :: 0 <= i < |gs| && gs[i] != [] && key(gs[i][0]) == key(d) {
      var i :| 0 <= i < |q| && q[i] == d;
      if i < n {
        assert d in q[..n];
        var j :| 0 <= j < |tail| && tail[j] != [] && key(tail[j][0]) == key(d);
        assert gs[j + 1] == tail[j];
      } else {
        assert gs[0] == q[n..] && gs[0][0] == q[n];
      }
    }
  }

  lemma FlattenCons<D>(g: seq<D>, gs: seq<seq<D>>)
    ensures Flatten([g] + gs) == g + Flatten(gs)
  {
    assert ([g] + gs)[1..] == gs;
  }

  lemma {:induction false} GroupsKeepAll<D>(q: seq<D>, key: D -> nat)
    ensures multiset(Flatten(Groups(q, key))) == multiset(q)
    decreases |q|
  {
    if q != [] {
      var n := GroupStart(q, key, key(q[|q| - 1]));
      GroupsKeepAll(q[..n], key);
      FlattenCons(q[n..], Groups(q[..n], key));
      assert q == q[..n] + q[n..];
    }
  }

  /**
   * Draining yields non-empty groups with strictly decreasing keys, each exactly the deliveries with that
   * key in their original order, and hands out every delivery exactly as often as it was there.
   */
  lemma DrainSpec<D(!new)>(input: seq<D>, key: D -> nat)
    ensures var gs := Groups(SortByKey(input, key), key);
            && (forall i :: 0 <= i < |gs| ==> ProperGroup(gs[i], input, key))
            && KeysDecrease(gs, key)
            && Covers(gs, input, key)
            && multiset(Flatten(gs)) == multiset(input)
  {
    var q := SortByKey(input, key);
    var gs := Groups(q, key);
    SortSpec(input, key, 0);
    SortedGroups(q, key);
    SortKeepsAll(input, key);
    GroupsKeepAll(q, key);
    forall i | 0 <= i < |gs| ensures ProperGroup(gs[i], input, key) {
      SortSpec(input, key, key(gs[i][0]));
    }
  }

  class Propagation<D> {
    const key: D -> nat
    var deliveries: seq<D>

    constructor (deliveries: seq<D>, key: D -> nat)
      ensures this.key == key && this.deliveries == SortByKey(deliveries, key)
    {
      this.key := key;
      this.deliveries := SortByKey(deliveries, key);
    }

    method NextGroup() returns (ok: bool, group: seq<D>)
      modifies this
      ensures ok <==> old(deliveries) != []
      ensures ok ==> Groups(old(deliveries), key) == [group] + Groups(deliveries, key) && group != []
      ensures ok ==> old(deliveries) == deliveries + group
      ensures !ok ==> deliveries == []
    {
      if deliveries == [] {
        return false, [];
      }
      var lastKey := key(deliveries[|deliveries| - 1]);
      var start := |deliveries|;
      assert deliveries[..start] == deliveries;
      while start > 0 && key(deliveries[start - 1]) == lastKey
        invariant 0 <= start <= |deliveries| && deliveries == old(deliveries)
        invariant start == |deliveries| ==> start > 0
        invariant GroupStart(deliveries[..start], key, lastKey) == GroupStart(deliveries, key, lastKey)
      {
        assert deliveries[..start][..start - 1] == deliveries[..start - 1];
        start := start - 1;
      }
      group := deliveries[start..];
      deliveries := deliveries[..start];
      ok := true;
    }

    method Drain() returns (groups: seq<seq<D>>)
      modifies this
      ensures groups == Groups(old(deliveries), key) && deliveries == []
    {
      groups := [];
      while true
        invariant groups + Groups(deliveries, key) == Groups(old(deliveries), key)
        decreases |deliveries|
      {
        var ok, group := NextGroup();
        if !ok {
          break;
        }
        groups := groups + [group];
      }
    }
  }
}
