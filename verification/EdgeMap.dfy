/**
 * The router's bidirectional edge map. The forward map is the truth; the reverse map is an index that the
 * object maintains incrementally and that must equal the one rebuilt from scratch.
 */
module EdgeMap {
  import opened Common

  type Forward<S, T> = map<S, seq<T>>

  /** The reference meaning: a plain relation. */
  ghost function Pairs<S(!new), T(!new)>(fwd: Forward<S, T>): iset<(S, T)>
  {
    iset s, t | s in fwd && t in fwd[s] :: (s, t)
  }

  predicate HasEdge<S, T(==)>(fwd: Forward<S, T>, s: S, t: T) { s in fwd && t in fwd[s] }

  ghost function Sources<S(!new), T>(fwd: Forward<S, T>, t: T): set<S>
  {
    set s | s in fwd && t in fwd[s]
  }

  /** The reverse index, from scratch: targets with at least one source, and all their sources. */
  ghost predicate IsReverse<S(!new), T(!new)>(fwd: Forward<S, T>, rev: map<T, set<S>>)
  {
    forall t :: (t in rev <==> Sources(fwd, t) != {}) && (t in rev ==> rev[t] == Sources(fwd, t))
  }

  ghost predicate NoEmptyEntry<S, T>(fwd: Forward<S, T>) { forall s :: s in fwd ==> fwd[s] != [] }

  function TargetsOf<S, T>(fwd: Forward<S, T>, s: S): seq<T> { if s in fwd then fwd[s] else [] }

  function AsSet<T>(q: seq<T>): set<T> { set t | t in q }

  datatype EdgeDiff<T> = EdgeDiff(added: seq<T>, removed: seq<T>)

  /** The forward map after `set_edges`: an unchanged target set keeps the old list, whatever its order. */
  ghost function SetForward<S, T>(fwd: Forward<S, T>, source: S, targets: seq<T>): Forward<S, T>
  {
    if targets == [] then fwd - {source}
    else if AsSet(TargetsOf(fwd, source)) == AsSet(targets) then fwd
    else fwd[source := targets]
  }

  ghost function RemoveForward<S, T>(fwd: Forward<S, T>, t: T): Forward<S, T>
  {
    map s | s in fwd && (t in fwd[s] ==> Without(fwd[s], t) != []) :: Without(fwd[s], t)
  }

  // ---------------------------------------------------------------------
  // Laws of the forward map
  // ---------------------------------------------------------------------

  /** `set_edges` replaces exactly the edges of its source. */
  lemma SetForwardPairs<S(!new), T(!new)>(fwd: Forward<S, T>, source: S, targets: seq<T>)
    ensures Pairs(SetForward(fwd, source, targets))
            == iset s, t | (if s == source then t in targets else (s, t) in Pairs(fwd)) :: (s, t)
    ensures NoEmptyEntry(fwd) ==> NoEmptyEntry(SetForward(fwd, source, targets))
  {
    var fwd' := SetForward(fwd, source, targets);
    forall s, t ensures (s, t) in Pairs(fwd') <==> if s == source then t in targets else (s, t) in Pairs(fwd) {
      if targets != [] && AsSet(TargetsOf(fwd, source)) == AsSet(targets) {
        assert t in TargetsOf(fwd, source) <==> t in AsSet(TargetsOf(fwd, source));
        assert t in targets <==> t in AsSet(targets);
      }
    }
  }

  /** The list kept for the source is the one given, unless only order or multiplicity changed. */
  lemma SetForwardListIff<S(!new), T(!new)>(fwd: Forward<S, T>, source: S, targets: seq<T>)
    ensures TargetsOf(SetForward(fwd, source, targets), source) == targets
            <==> || targets == []
                 || TargetsOf(fwd, source) == targets
                 || AsSet(TargetsOf(fwd, source)) != AsSet(targets)
  {
  }

  /** An input on which the list given is not the list kept: two targets change places. */
  lemma ReorderIsIgnored<S(!new), T(!new)>(source: S, a: T, b: T)
    requires a != b
    ensures TargetsOf(SetForward(map[source := [a, b]], source, [b, a]), source) == [a, b] != [b, a]
  {
    assert AsSet([a, b]) == {a, b} == AsSet([b, a]);
    assert [a, b][0] != [b, a][0];
  }

  /** `remove_target` removes exactly the edges to its target. */
  lemma RemoveForwardPairs<S(!new), T(!new)>(fwd: Forward<S, T>, target: T)
    ensures Pairs(RemoveForward(fwd, target)) == iset s, t | (s, t) in Pairs(fwd) && t != target :: (s, t)
    ensures NoEmptyEntry(fwd) ==> NoEmptyEntry(RemoveForward(fwd, target))
  {
    var fwd' := RemoveForward(fwd, target);
    forall s | s in fwd' ensures NoEmptyEntry(fwd) ==> fwd'[s] != [] {
      WithoutMembers(fwd[s], target);
    }
    forall s, t ensures (s, t) in Pairs(fwd') <==> (s, t) in Pairs(fwd) && t != target {
      if s in fwd {
        WithoutMembers(fwd[s], target);
      }
    }
  }

  /** The targets whose source set `set_edges` changes are exactly those entering or leaving its target set. */
  lemma ChangedTargets<S(!new), T(!new)>(fwd: Forward<S, T>, source: S, targets: seq<T>, t: T)
    ensures var fwd' := SetForward(fwd, source, targets);
            Sources(fwd', t) != Sources(fwd, t)
            <==> (t in TargetsOf(fwd, source)) != (t in targets)
  {
    var fwd' := SetForward(fwd, source, targets);
    var before, after := Sources(fwd, t), Sources(fwd', t);
    assert source in before <==> t in TargetsOf(fwd, source);
    assert source in after <==> t in targets by {
      if targets != [] && AsSet(TargetsOf(fwd, source)) == AsSet(targets) {
        assert t in TargetsOf(fwd, source) <==> t in AsSet(TargetsOf(fwd, source));
        assert t in targets <==> t in AsSet(targets);
      }
    }
    assert forall s :: s != source ==> (s in before <==> s in after);
    if (t in TargetsOf(fwd, source)) == (t in targets) {
      assert before == after;
    }
  }

  /** A given forward map has one reverse index. */
  lemma ReverseUnique<S(!new), T(!new)>(fwd: Forward<S, T>, a: map<T, set<S>>, b: map<T, set<S>>)
    requires IsReverse(fwd, a) && IsReverse(fwd, b)
    ensures a == b
  {
    assert forall t :: t in a <==> t in b;
  }

  // ---------------------------------------------------------------------
  // Sequences of operations
  // ---------------------------------------------------------------------

  datatype Op<S, T> = SetOp(source: S, targets: seq<T>) | RemoveOp(target: T)

  ghost function RunForward<S, T>(ops: seq<Op<S, T>>): Forward<S, T>
  {
    if ops == [] then map[]
    else
      var before := RunForward(ops[..|ops| - 1]);
      match ops[|ops| - 1]
      case SetOp(s, ts) => SetForward(before, s, ts)
      case RemoveOp(t) => RemoveForward(before, t)
  }

  ghost function RunRelation<S(!new), T(!new)>(ops: seq<Op<S, T>>): iset<(S, T)>
  {
    if ops == [] then iset{}
    else
      var before := RunRelation(ops[..|ops| - 1]);
      match ops[|ops| - 1]
      case SetOp(source, ts) => iset s, t | (if s == source then t in ts else (s, t) in before) :: (s, t)
      case RemoveOp(target) => iset s, t | (s, t) in before && t != target :: (s, t)
  }

  /** Over every sequence of operations the map is the plain relation, and keeps no empty entry. */
  lemma {:induction false} RefinesRelation<S(!new), T(!new)>(ops: seq<Op<S, T>>)
    ensures Pairs(RunForward(ops)) == RunRelation(ops)
    ensures NoEmptyEntry(RunForward(ops))
  {
    if ops != [] {
      RefinesRelation(ops[..|ops| - 1]);
      var before := RunForward(ops[..|ops| - 1]);
      match ops[|ops| - 1]
      case SetOp(s, ts) => SetForwardPairs(before, s, ts);
      case RemoveOp(t) => RemoveForwardPairs(before, t);
    }
  }

  // ---------------------------------------------------------------------
  // The object
  // ---------------------------------------------------------------------

  /** The members of a set, each once. */
  method Listed<T(==, !new)>(s: set<T>) returns (q: seq<T>)
    ensures Enumerates(q, s)
  {
    q := [];
    var rest := s;
    while rest != {}
      invariant rest <= s && NoDuplicates(q)
      invariant forall t :: t in q <==> t in s && t !in rest
      decreases |rest|
    {
      var t :| t in rest;
      q := q + [t];
      rest := rest - {t};
    }
  }

  class Edges<S(==, !new), T(==, !new)> {
    var fwd: Forward<S, T>
    var rev: map<T, set<S>>

    ghost predicate Valid()
      reads this
    {
      IsReverse(fwd, rev)
    }

    constructor ()
      ensures Valid() && fwd == map[] && rev == map[]
    {
      fwd, rev := map[], map[];
    }

    /** Rebuilds the reverse index from a forward map; `order` is the map's iteration order. */
    constructor FromFwd(source: Forward<S, T>, order: seq<S>)
      requires Enumerates(order, source.Keys)
      ensures Valid() && fwd == source
    {
      fwd, rev := source, map[];
      new;
      for i := 0 to |order|
        invariant fwd == source && IsReverse(Restrict(source, order[..i]), rev)
      {
        assert order[..i + 1] == order[..i] + [order[i]];
        var s := order[i];
        assert s !in order[..i];
        ghost var done := Restrict(source, order[..i]);
        RestrictNext(source, order[..i], s);
        IndexSource(s, source[s], done);
      }
      assert order[..|order|] == order;
      assert Restrict(source, order) == source;
    }

    /** Adds one source to the reverse index, next to those of `done`. */
    method IndexSource(s: S, targets: seq<T>, ghost done: Forward<S, T>)
      requires s !in done && IsReverse(done, rev)
      modifies this`rev
      ensures IsReverse(done[s := targets], rev)
    {
      assert AddEdges(done, s, []) == done;
      for j := 0 to |targets|
        invariant IsReverse(AddEdges(done, s, targets[..j]), rev)
      {
        assert targets[..j + 1] == targets[..j] + [targets[j]];
        AddToIndex(AddEdges(done, s, targets[..j]), AddEdges(done, s, targets[..j + 1]), rev, s, targets[j]);
        rev := AddSource(rev, targets[j], s);
      }
      assert targets[..|targets|] == targets;
      SameSources(AddEdges(done, s, targets), done[s := targets], rev);
    }

    method RemoveSources(source: S, targets: seq<T>)
      requires forall t :: t in targets ==> t in rev
      modifies this`rev
      ensures forall t :: t in rev <==> t in old(rev) && !(t in targets && old(rev)[t] - {source} == {})
      ensures forall t :: t in rev ==> rev[t] == if t in targets then old(rev)[t] - {source} else old(rev)[t]
    {
      for i := 0 to |targets|
        invariant forall t :: t in rev <==> t in old(rev) && !(t in targets[..i] && old(rev)[t] - {source} == {})
        invariant forall t :: t in rev ==> rev[t] == if t in targets[..i] then old(rev)[t] - {source} else old(rev)[t]
      {
        var t := targets[i];
        assert targets[..i + 1] == targets[..i] + [t];
        if t in rev {
          var sources := rev[t] - {source};
          if sources == {} {
            rev := rev - {t};
          } else {
            rev := rev[t := sources];
          }
        }
      }
      assert targets[..|targets|] == targets;
    }

    method AddSources(source: S, targets: seq<T>)
      modifies this`rev
      ensures forall t :: t in rev <==> t in old(rev) || t in targets
      ensures forall t :: t in rev ==>
                rev[t] == (if t in old(rev) then old(rev)[t] else {}) + if t in targets then {source} else {}
    {
      for i := 0 to |targets|
        invariant forall t :: t in rev <==> t in old(rev) || t in targets[..i]
        invariant forall t :: t in rev ==>
                    rev[t] == (if t in old(rev) then old(rev)[t] else {}) + if t in targets[..i] then {source} else {}
      {
        assert targets[..i + 1] == targets[..i] + [targets[i]];
        rev := AddSource(rev, targets[i], source);
      }
      assert targets[..|targets|] == targets;
    }

    method SetEdges(source: S, newTargets: seq<T>) returns (diff: Option<EdgeDiff<T>>)
      requires Valid()
      modifies this
      ensures Valid() && fwd == SetForward(old(fwd), source, newTargets)
      ensures diff == None <==> AsSet(TargetsOf(old(fwd), source)) == AsSet(newTargets)
      ensures diff.Some? ==> forall t ::
                && (t in diff.value.added <==> t in newTargets && t !in TargetsOf(old(fwd), source))
                && (t in diff.value.removed <==> t in TargetsOf(old(fwd), source) && t !in newTargets)
      ensures diff.Some? && newTargets != [] ==> NoDuplicates(diff.value.added) && NoDuplicates(diff.value.removed)
      ensures diff.Some? && newTargets == [] ==> diff.value == EdgeDiff([], TargetsOf(old(fwd), source))
    {
      if newTargets == [] {
        var removed := ClearEdges(source);
        if removed == [] {
          return None;
        }
        assert removed[0] in AsSet(removed);
        return Some(EdgeDiff([], removed));
      }
      var oldSet, newSet := AsSet(TargetsOf(fwd, source)), AsSet(newTargets);
      if oldSet == newSet {
        return None;
      }
      var removed := Listed(oldSet - newSet);
      var added := Listed(newSet - oldSet);
      ReplaceEdges(source, newTargets, removed, added);
      diff := Some(EdgeDiff(added, removed));
    }

    method ClearEdges(source: S) returns (removed: seq<T>)
      requires Valid()
      modifies this
      ensures Valid() && fwd == old(fwd) - {source} && removed == TargetsOf(old(fwd), source)
    {
      removed := TargetsOf(fwd, source);
      fwd := fwd - {source};
      IndexedTargets(old(fwd), rev, source);
      RemoveSources(source, removed);
      ClearedIndex(old(fwd), old(rev), fwd, rev, source, removed);
    }

    method ReplaceEdges(source: S, newTargets: seq<T>, removed: seq<T>, added: seq<T>)
      requires Valid()
      requires forall t :: t in removed <==> t in TargetsOf(fwd, source) && t !in newTargets
      requires forall t :: t in added <==> t in newTargets && t !in TargetsOf(fwd, source)
      modifies this
      ensures Valid() && fwd == old(fwd)[source := newTargets]
    {
      fwd := fwd[source := newTargets];
      IndexedTargets(old(fwd), rev, source);
      RemoveSources(source, removed);
      ghost var mid := rev;
      AddSources(source, added);
      ReplacedIndex(old(fwd), old(rev), fwd, mid, rev, source, removed, added);
    }

    /** Rebuilding from the forward map gives the same object. */
    method Rebuild(order: seq<S>) returns (copy: Edges<S, T>)
      requires Valid() && Enumerates(order, fwd.Keys)
      ensures fresh(copy) && copy.Valid() && copy.fwd == fwd && copy.rev == rev
    {
      copy := new Edges.FromFwd(fwd, order);
      ReverseUnique(fwd, rev, copy.rev);
    }

    /** Any sequence of operations on a new map: both indexes are those of the plain relation. */
    method Perform(ops: seq<Op<S, T>>)
      requires fwd == map[] && rev == map[]
      modifies this
      ensures Valid() && Pairs(fwd) == RunRelation(ops) && NoEmptyEntry(fwd)
      ensures forall t :: t in rev <==> exists s :: (s, t) in RunRelation(ops)
      ensures forall s, t :: t in rev ==> (s in rev[t] <==> (s, t) in RunRelation(ops))
    {
      for i := 0 to |ops|
        invariant Valid() && fwd == RunForward(ops[..i])
      {
        assert ops[..i + 1][..i] == ops[..i];
        match ops[i] {
          case SetOp(s, ts) =>
            var diff := SetEdges(s, ts);
          case RemoveOp(t) =>
            var order := Listed(if t in rev then rev[t] else {});
            RemoveTarget(t, order);
        }
      }
      assert ops[..|ops|] == ops;
      RefinesRelation(ops);
      ReverseOfPairs(fwd, rev);
    }

    /** Drops every edge to a target; `order` is the iteration order of its source set. */
    method RemoveTarget(target: T, order: seq<S>)
      requires Valid() && Enumerates(order, if target in rev then rev[target] else {})
      modifies this
      ensures Valid() && fwd == RemoveForward(old(fwd), target)
    {
      RemovedIndex(fwd, rev, target);
      assert forall s :: s in fwd ==> (target in fwd[s] <==> s in Sources(fwd, target));
      rev := rev - {target};
      RemoveFromSources(target, order);
    }

    method RemoveFromSources(target: T, order: seq<S>)
      requires NoDuplicates(order)
      requires forall s :: s in fwd ==> (s in order <==> target in fwd[s])
      modifies this`fwd
      ensures fwd == RemoveForward(old(fwd), target)
    {
      for i := 0 to |order|
        invariant RemoveForward(fwd, target) == RemoveForward(old(fwd), target)
        invariant forall s :: s in fwd ==> (s in order[i..] <==> target in fwd[s])
      {
        var source := order[i];
        assert order[i..] == [source] + order[i + 1..] && source !in order[i + 1..];
        if source in fwd {
          var targets := Without(fwd[source], target);
          RemoveFromOne(fwd, target, source);
          if targets == [] {
            fwd := fwd - {source};
          } else {
            fwd := fwd[source := targets];
          }
        }
      }
      Untouched(fwd, target);
    }
  }

  lemma ReverseOfPairs<S(!new), T(!new)>(fwd: Forward<S, T>, rev: map<T, set<S>>)
    requires IsReverse(fwd, rev)
    ensures forall t :: t in rev <==> exists s :: (s, t) in Pairs(fwd)
    ensures forall s, t :: t in rev ==> (s in rev[t] <==> (s, t) in Pairs(fwd))
  {
    forall t ensures t in rev <==> exists s :: (s, t) in Pairs(fwd) {
      if t in rev {
        var s :| s in Sources(fwd, t);
        assert (s, t) in Pairs(fwd);
      }
      if s :| (s, t) in Pairs(fwd) {
        assert s in Sources(fwd, t);
      }
    }
    forall s, t | t in rev ensures s in rev[t] <==> (s, t) in Pairs(fwd) {
      assert rev[t] == Sources(fwd, t);
    }
  }

  lemma RemoveFromOne<S(!new), T(!new)>(fwd: Forward<S, T>, target: T, source: S)
    requires source in fwd && target in fwd[source]
    ensures var targets := Without(fwd[source], target);
            && target !in targets
            && RemoveForward(if targets == [] then fwd - {source} else fwd[source := targets], target)
               == RemoveForward(fwd, target)
  {
    var targets := Without(fwd[source], target);
    WithoutMembers(fwd[source], target);
    WithoutMembers(targets, target);
    var fwd' := if targets == [] then fwd - {source} else fwd[source := targets];
    var a, b := RemoveForward(fwd', target), RemoveForward(fwd, target);
    assert source in a <==> source in b;
    forall s | s != source ensures (s in a <==> s in b) && (s in a ==> a[s] == b[s]) {
      assert s in fwd' <==> s in fwd;
    }
  }

  lemma Untouched<S(!new), T(!new)>(fwd: Forward<S, T>, target: T)
    requires forall s :: s in fwd ==> target !in fwd[s]
    ensures RemoveForward(fwd, target) == fwd
  {
    forall s | s in fwd ensures Without(fwd[s], target) == fwd[s] {
      WithoutMembers(fwd[s], target);
    }
  }

  function AddSource<S, T>(rev: map<T, set<S>>, t: T, s: S): map<T, set<S>>
  {
    rev[t := (if t in rev then rev[t] else {}) + {s}]
  }

  ghost function Restrict<S, T>(fwd: Forward<S, T>, keys: seq<S>): Forward<S, T>
  {
    map s | s in fwd && s in keys :: fwd[s]
  }

  lemma RestrictNext<S(!new), T>(fwd: Forward<S, T>, keys: seq<S>, s: S)
    requires s in fwd && s !in keys
    ensures s !in Restrict(fwd, keys) && Restrict(fwd, keys + [s]) == Restrict(fwd, keys)[s := fwd[s]]
  {
  }

  ghost function AddEdges<S, T>(fwd: Forward<S, T>, s: S, ts: seq<T>): Forward<S, T>
  {
    if ts == [] then fwd else fwd[s := ts]
  }

  lemma AddToIndex<S(!new), T(!new)>(before: Forward<S, T>, after: Forward<S, T>, rev: map<T, set<S>>, s: S, t: T)
    requires IsReverse(before, rev)
    requires forall r, x :: HasEdge(after, r, x) <==> HasEdge(before, r, x) || (r == s && x == t)
    ensures IsReverse(after, AddSource(rev, t, s))
  {
    forall x ensures Sources(after, x) == Sources(before, x) + if x == t then {s} else {} {
      forall r ensures r in Sources(after, x) <==> r in Sources(before, x) || (x == t && r == s) {
        assert HasEdge(after, r, x) <==> HasEdge(before, r, x) || (r == s && x == t);
      }
    }
  }

  lemma SameSources<S(!new), T(!new)>(a: Forward<S, T>, b: Forward<S, T>, rev: map<T, set<S>>)
    requires IsReverse(a, rev)
    requires forall s, t :: HasEdge(a, s, t) <==> HasEdge(b, s, t)
    ensures IsReverse(b, rev)
  {
    forall t ensures Sources(a, t) == Sources(b, t) {
      forall s ensures s in Sources(a, t) <==> s in Sources(b, t) {
        assert HasEdge(a, s, t) <==> HasEdge(b, s, t);
      }
    }
  }

  lemma IndexedTargets<S(!new), T(!new)>(fwd: Forward<S, T>, rev: map<T, set<S>>, source: S)
    requires IsReverse(fwd, rev)
    ensures forall t :: t in TargetsOf(fwd, source) ==> t in rev && source in rev[t]
  {
    forall t | t in TargetsOf(fwd, source) ensures t in rev && source in rev[t] {
      assert source in Sources(fwd, t);
    }
  }

  lemma ClearedIndex<S(!new), T(!new)>(fwd: Forward<S, T>, rev: map<T, set<S>>,
                                       fwd': Forward<S, T>, rev': map<T, set<S>>,
                                        source: S, removed: seq<T>)
    requires IsReverse(fwd, rev) && fwd' == fwd - {source} && removed == TargetsOf(fwd, source)
    requires forall t :: t in rev' <==> t in rev && !(t in removed && rev[t] - {source} == {})
    requires forall t :: t in rev' ==> rev'[t] == if t in removed then rev[t] - {source} else rev[t]
    ensures IsReverse(fwd', rev')
  {
    forall t ensures Sources(fwd', t) == Sources(fwd, t) - {source} {
    }
    forall t | t !in removed ensures Sources(fwd, t) - {source} == Sources(fwd, t) {
    }
  }

  lemma ReplacedIndex<S(!new), T(!new)>(fwd: Forward<S, T>, rev: map<T, set<S>>, fwd': Forward<S, T>,
                                         mid: map<T, set<S>>, rev': map<T, set<S>>,
                                         source: S, removed: seq<T>, added: seq<T>)
    requires IsReverse(fwd, rev) && source in fwd' && fwd' == fwd[source := fwd'[source]]
    requires forall t :: t in removed <==> t in TargetsOf(fwd, source) && t !in fwd'[source]
    requires forall t :: t in added <==> t in fwd'[source] && t !in TargetsOf(fwd, source)
    requires forall t :: t in mid <==> t in rev && !(t in removed && rev[t] - {source} == {})
    requires forall t :: t in mid ==> mid[t] == if t in removed then rev[t] - {source} else rev[t]
    requires forall t :: t in rev' <==> t in mid || t in added
    requires forall t :: t in rev' ==>
                          rev'[t] == (if t in mid then mid[t] else {}) + if t in added then {source} else {}
    ensures IsReverse(fwd', rev')
  {
    forall t ensures (t in rev' <==> Sources(fwd', t) != {}) && (t in rev' ==> rev'[t] == Sources(fwd', t)) {
      ReplacedSources(fwd, fwd', source, t);
      assert source in Sources(fwd, t) <==> t in TargetsOf(fwd, source);
    }
  }

  lemma ReplacedSources<S(!new), T(!new)>(fwd: Forward<S, T>, fwd': Forward<S, T>, source: S, t: T)
    requires source in fwd' && fwd' == fwd[source := fwd'[source]]
    ensures Sources(fwd', t) == Sources(fwd, t) - {source} + if t in fwd'[source] then {source} else {}
  {
  }

  lemma RemovedIndex<S(!new), T(!new)>(fwd: Forward<S, T>, rev: map<T, set<S>>, target: T)
    requires IsReverse(fwd, rev)
    ensures IsReverse(RemoveForward(fwd, target), rev - {target})
  {
    var fwd' := RemoveForward(fwd, target);
    forall t ensures Sources(fwd', t) == if t == target then {} else Sources(fwd, t) {
      forall s ensures s in Sources(fwd', t) <==> t != target && s in Sources(fwd, t) {
        if s in fwd {
          WithoutMembers(fwd[s], target);
        }
      }
    }
  }
}
