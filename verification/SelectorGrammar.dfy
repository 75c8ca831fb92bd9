/** The grammar of selectors, spaces included, and that the parser accepts exactly its texts. */
module SelectorGrammar {
  import opened Common
  import opened Selector

  // ---------------------------------------------------------------------
  // The grammar: each text is given with what follows it
  // ---------------------------------------------------------------------

  /** Any number of spaces, and then `t`. */
  function Gap(n: nat, t: string): string
  {
    if n == 0 then t else " " + Gap(n - 1, t)
  }

  datatype Around = Around(before: nat, after: nat)

  /**
   * The spaces in and around a predicate: before it, between its key and its operator, after the operator, inside an
   * empty value set, around the values of a set, and after the predicate.
   */
  datatype Layout = Layout(lead: nat, beforeOp: nat, afterOp: nat, inside: nat, around: seq<Around>, trail: nat)

  /** The values after the first, up to the closing parenthesis. */
  function MoreValuesText(vs: seq<string>, gaps: seq<Around>, t: string): string
    requires |gaps| == |vs|
  {
    if vs == [] then ")" + t
    else "," + Gap(gaps[0].before, vs[0] + Gap(gaps[0].after, MoreValuesText(vs[1..], gaps[1..], t)))
  }

  function SetText(vs: seq<string>, gaps: seq<Around>, inside: nat, t: string): string
    requires |gaps| == |vs|
  {
    if vs == [] then "(" + Gap(inside, ")" + t)
    else "(" + Gap(gaps[0].before, vs[0] + Gap(gaps[0].after, MoreValuesText(vs[1..], gaps[1..], t)))
  }

  /** Only a word operator needs a space before it, and only a set has spaces around its values. */
  predicate Fits(p: Predicate, l: Layout)
  {
    match p
    case In(_, vs) => l.beforeOp > 0 && |l.around| == |vs|
    case NotIn(_, vs) => l.beforeOp > 0 && |l.around| == |vs|
    case _ => true
  }

  /** The text of a predicate from its operator on. */
  function OperatorText(p: Predicate, l: Layout, t: string): string
    requires Fits(p, l)
  {
    match p
    case Equals(_, v) => "=" + Gap(l.afterOp, v + t)
    case NotEquals(_, v) => "!=" + Gap(l.afterOp, v + t)
    case In(_, vs) => "in" + Gap(l.afterOp, SetText(vs, l.around, l.inside, t))
    case NotIn(_, vs) => "notin" + Gap(l.afterOp, SetText(vs, l.around, l.inside, t))
    case _ => t
  }

  /** The text of a predicate up to its end. */
  function BareText(p: Predicate, l: Layout, t: string): string
    requires Fits(p, l)
  {
    if p.NotExists? then "!" + (p.key + t)
    else if p.Exists? then p.key + t
    else p.key + Gap(l.beforeOp, OperatorText(p, l, t))
  }

  function PredicateText(p: Predicate, l: Layout, t: string): string
    requires Fits(p, l)
  {
    BareText(p, l, Gap(l.trail, t))
  }

  predicate AllFit(ps: seq<Predicate>, ls: seq<Layout>)
  {
    |ls| == |ps| && forall i :: 0 <= i < |ps| ==> Fits(ps[i], ls[i])
  }

  /** The predicates after the first, each with its comma. */
  function MoreText(ps: seq<Predicate>, ls: seq<Layout>): string
    requires AllFit(ps, ls)
  {
    if ps == [] then ""
    else "," + Gap(ls[0].lead, PredicateText(ps[0], ls[0], MoreText(ps[1..], ls[1..])))
  }

  /** The text of a selector: nothing but spaces, or predicates separated by commas. */
  function Text(ps: seq<Predicate>, ls: seq<Layout>, blank: nat): string
    requires AllFit(ps, ls)
  {
    if ps == [] then Gap(blank, "") else Gap(ls[0].lead, PredicateText(ps[0], ls[0], MoreText(ps[1..], ls[1..])))
  }

  // ---------------------------------------------------------------------
  // Every text of the grammar is accepted
  // ---------------------------------------------------------------------

  lemma {:induction false} SkipGap(n: nat, t: string)
    ensures SkipSpaces(Gap(n, t)) == SkipSpaces(t)
  {
    if n > 0 {
      SkipGap(n - 1, t);
      assert Gap(n, t)[1..] == Gap(n - 1, t);
    }
  }

  lemma GapBoundary(n: nat, t: string)
    requires Boundary(t)
    ensures Boundary(Gap(n, t))
  {
  }

  lemma MoreValuesStarts(vs: seq<string>, gaps: seq<Around>, t: string)
    requires |gaps| == |vs|
    ensures var s := MoreValuesText(vs, gaps, t);
            Boundary(s) && SkipSpaces(s) == s && Span(s, false) == 0 && s != [] && (Starts(s, ')') <==> vs == [])
  {
  }

  /** A value with its gaps, before more of the set. */
  lemma ValueRead(v: string, g: Around, u: string)
    requires ValueWord(v) && Boundary(u) && SkipSpaces(u) == u && u != []
    ensures var s := SkipSpaces(Gap(g.before, v + Gap(g.after, u)));
            var n := Span(s, false);
            && s[..n] == v && SkipSpaces(s[n..]) == u
            && (v == [] ==> s == u) && (v != [] ==> s[0] == v[0])
  {
    SkipGap(g.before, v + Gap(g.after, u));
    SkipGap(g.after, u);
    GapBoundary(g.after, u);
    if v == [] {
      assert v + Gap(g.after, u) == Gap(g.after, u);
      assert Span(u, false) == 0;
    } else {
      var s := v + Gap(g.after, u);
      assert s[0] == v[0] && IsValueChar(v[0]);
      assert SkipSpaces(s) == s;
      SpanWord(v, Gap(g.after, u), false);
    }
  }

  lemma MoreValuesSkips(s: string)
    ensures ParseMoreValues(s) == ParseMoreValues(SkipSpaces(s))
  {
    SkipTwice(s);
  }

  lemma {:induction false} MoreValuesAccepted(vs: seq<string>, gaps: seq<Around>, t: string)
    requires |gaps| == |vs| && forall i :: 0 <= i < |vs| ==> ValueWord(vs[i])
    ensures ParseMoreValues(MoreValuesText(vs, gaps, t)) == Ok(vs, t)
  {
    var s := MoreValuesText(vs, gaps, t);
    MoreValuesStarts(vs, gaps, t);
    if vs == [] {
      assert s[1..] == t;
    } else {
      MoreValuesAccepted(vs[1..], gaps[1..], t);
      MoreValuesStarts(vs[1..], gaps[1..], t);
      OneMoreValue(vs[0], gaps[0], MoreValuesText(vs[1..], gaps[1..], t), vs[1..], t);
      assert [vs[0]] + vs[1..] == vs;
    }
  }

  lemma OneMoreValue(v: string, g: Around, u: string, vs: seq<string>, t: string)
    requires ValueWord(v) && Boundary(u) && SkipSpaces(u) == u && u != [] && ParseMoreValues(u) == Ok(vs, t)
    ensures ParseMoreValues("," + Gap(g.before, v + Gap(g.after, u))) == Ok([v] + vs, t)
  {
    var r := Gap(g.before, v + Gap(g.after, u));
    ValueRead(v, g, u);
    Consumed(',', r);
    MoreValuesSkips(SkipSpaces(r)[Span(SkipSpaces(r), false)..]);
  }

  lemma SetAccepted(vs: seq<string>, gaps: seq<Around>, inside: nat, t: string)
    requires |gaps| == |vs| && ValueWords(vs)
    ensures ParseValueSet(SetText(vs, gaps, inside, t)) == Ok(vs, t)
    ensures Starts(SetText(vs, gaps, inside, t), '(')
  {
    if vs == [] {
      EmptySetAccepted(inside, t);
    } else {
      MoreValuesAccepted(vs[1..], gaps[1..], t);
      MoreValuesStarts(vs[1..], gaps[1..], t);
      NotEmptySet(vs);
      FirstValue(vs[0], gaps[0], MoreValuesText(vs[1..], gaps[1..], t), vs[1..], t);
      assert [vs[0]] + vs[1..] == vs;
    }
  }

  lemma EmptySetAccepted(inside: nat, t: string)
    ensures ParseValueSet("(" + Gap(inside, ")" + t)) == Ok([], t)
  {
    Consumed('(', Gap(inside, ")" + t));
    SkipGap(inside, ")" + t);
    Consumed(')', t);
  }

  lemma FirstValue(v: string, g: Around, u: string, vs: seq<string>, t: string)
    requires ValueWord(v) && Boundary(u) && SkipSpaces(u) == u && u != [] && ParseMoreValues(u) == Ok(vs, t)
    requires v == [] ==> !Starts(u, ')')
    ensures ParseValueSet("(" + Gap(g.before, v + Gap(g.after, u))) == Ok([v] + vs, t)
  {
    var r := Gap(g.before, v + Gap(g.after, u));
    ValueRead(v, g, u);
    Consumed('(', r);
    MoreValuesSkips(SkipSpaces(r)[Span(SkipSpaces(r), false)..]);
  }

  /** A set of values does not read as empty: its first value is not empty, or there is another. */
  lemma NotEmptySet(vs: seq<string>)
    requires ValueWords(vs) && vs != []
    ensures vs[0] == [] ==> vs[1..] != []
  {
    if |vs| == 1 {
      assert vs == [vs[0]];
    }
  }

  /** What is left after a predicate: `t`, perhaps with the spaces before it. */
  predicate Leaves(r: Result<Predicate>, p: Predicate, t: string)
  {
    r.Ok? && r.value == p && SkipSpaces(r.rest) == t
  }

  lemma FollowsSkips(t: string, n: nat)
    requires Follows(t)
    ensures SkipSpaces(t) == t && SkipSpaces(Gap(n, t)) == t && Boundary(t) && Boundary(Gap(n, t))
  {
    SkipGap(n, t);
    GapBoundary(n, t);
  }

  /** A value that ends a predicate. */
  lemma LastValueRead(v: string, before: nat, after: nat, t: string)
    requires ValueWord(v) && Follows(t)
    ensures var s := SkipSpaces(Gap(before, v + Gap(after, t)));
            var n := Span(s, false);
            s[..n] == v && SkipSpaces(s[n..]) == t
  {
    SkipGap(before, v + Gap(after, t));
    FollowsSkips(t, after);
    if v == [] {
      assert v + Gap(after, t) == Gap(after, t);
      assert Span(t, false) == 0;
    } else {
      var s := v + Gap(after, t);
      assert s[0] == v[0] && IsValueChar(v[0]);
      assert SkipSpaces(s) == s;
      SpanWord(v, Gap(after, t), false);
    }
  }

  lemma EqualsAccepted(k: string, v: string, afterOp: nat, trail: nat, t: string)
    requires ValueWord(v) && Follows(t)
    ensures Leaves(ParseOperator(k, "=" + Gap(afterOp, v + Gap(trail, t))), Equals(k, v), t)
    ensures Leaves(ParseOperator(k, "!=" + Gap(afterOp, v + Gap(trail, t))), NotEquals(k, v), t)
  {
    var r := Gap(afterOp, v + Gap(trail, t));
    LastValueRead(v, afterOp, trail, t);
    assert ("=" + r)[1..] == r;
    assert ("!=" + r)[1..] == "=" + r && ("!=" + r)[2..] == r;
  }

  lemma WordAccepted(k: string, afterOp: nat, body: string)
    requires Starts(body, '(') && ParseValueSet(body).Ok?
    ensures ParseOperator(k, "in" + Gap(afterOp, body))
            == Ok(In(k, ParseValueSet(body).value), ParseValueSet(body).rest)
    ensures ParseOperator(k, "notin" + Gap(afterOp, body))
            == Ok(NotIn(k, ParseValueSet(body).value), ParseValueSet(body).rest)
  {
    var r := Gap(afterOp, body);
    SkipGap(afterOp, body);
    assert SkipSpaces(body) == body;
    assert r != [] && (r[0] == ' ' || r[0] == '(');
    KeywordThen(r);
  }

  lemma KeywordThen(r: string)
    requires r != [] && (r[0] == ' ' || r[0] == '(')
    ensures Keyword("in" + r, "in") && ("in" + r)[2..] == r && ("in" + r)[0] == 'i'
    ensures Keyword("notin" + r, "notin") && ("notin" + r)[5..] == r
    ensures !Keyword("notin" + r, "in") && ("notin" + r)[0] == 'n'
  {
    assert ("notin" + r)[0] == 'n';
  }

  /** After the key: the operator, which no space and no key character begins. */
  lemma OperatorRead(k: string, n: nat, s: string)
    requires KeyWord(k) && s != [] && s[0] != ' ' && (n > 0 || Boundary(s))
    ensures ParsePredicate(k + Gap(n, s)) == ParseOperator(k, s)
  {
    SkipGap(n, s);
    assert Boundary(Gap(n, s));
    AfterKey(k, Gap(n, s));
  }

  lemma PredicateAccepted(p: Predicate, l: Layout, t: string)
    requires Printable(p) && Fits(p, l) && Follows(t)
    ensures Leaves(ParsePredicate(PredicateText(p, l, t)), p, t)
  {
    match p
    case Equals(k, v) =>
      EqualsAccepted(k, v, l.afterOp, l.trail, t);
      OperatorRead(k, l.beforeOp, "=" + Gap(l.afterOp, v + Gap(l.trail, t)));
    case NotEquals(k, v) =>
      EqualsAccepted(k, v, l.afterOp, l.trail, t);
      OperatorRead(k, l.beforeOp, "!=" + Gap(l.afterOp, v + Gap(l.trail, t)));
    case In(k, vs) => SetPredicateAccepted(k, vs, l, t);
    case NotIn(k, vs) => SetPredicateAccepted(k, vs, l, t);
    case Exists(k) =>
      FollowsSkips(t, l.trail);
      AfterKey(k, Gap(l.trail, t));
    case NotExists(k) =>
      FollowsSkips(t, l.trail);
      Consumed('!', k + Gap(l.trail, t));
      ParseKeyWord(k, Gap(l.trail, t));
  }

  lemma SetPredicateAccepted(k: string, vs: seq<string>, l: Layout, t: string)
    requires KeyWord(k) && ValueWords(vs) && l.beforeOp > 0 && |l.around| == |vs| && Follows(t)
    ensures Leaves(ParsePredicate(PredicateText(In(k, vs), l, t)), In(k, vs), t)
    ensures Leaves(ParsePredicate(PredicateText(NotIn(k, vs), l, t)), NotIn(k, vs), t)
  {
    var body := SetText(vs, l.around, l.inside, Gap(l.trail, t));
    FollowsSkips(t, l.trail);
    SetAccepted(vs, l.around, l.inside, Gap(l.trail, t));
    WordAccepted(k, l.afterOp, body);
    OperatorRead(k, l.beforeOp, "in" + Gap(l.afterOp, body));
    OperatorRead(k, l.beforeOp, "notin" + Gap(l.afterOp, body));
  }

  lemma PredicateStarts(p: Predicate, l: Layout, t: string)
    requires Printable(p) && Fits(p, l)
    ensures var s := PredicateText(p, l, t); s != [] && s[0] != ' '
  {
    var s := PredicateText(p, l, t);
    assert s[0] == if p.NotExists? then '!' else p.key[0];
  }

  /** Where a predicate begins does not depend on the spaces before it. */
  lemma PredicateSkips(s: string)
    ensures ParsePredicate(s) == ParsePredicate(SkipSpaces(s))
  {
    SkipTwice(s);
  }

  lemma MorePredicatesSkips(s: string)
    ensures ParseMorePredicates(s) == ParseMorePredicates(SkipSpaces(s))
  {
    SkipTwice(s);
  }

  lemma {:induction false} MoreAccepted(ps: seq<Predicate>, ls: seq<Layout>)
    requires AllPrintable(ps) && AllFit(ps, ls)
    ensures ParseMorePredicates(MoreText(ps, ls)) == Ok(ps, []) && Follows(MoreText(ps, ls))
  {
    if ps != [] {
      var t := MoreText(ps[1..], ls[1..]);
      var s := PredicateText(ps[0], ls[0], t);
      MoreAccepted(ps[1..], ls[1..]);
      PredicateAccepted(ps[0], ls[0], t);
      PredicateStarts(ps[0], ls[0], t);
      SkipGap(ls[0].lead, s);
      Consumed(',', Gap(ls[0].lead, s));
      MorePredicatesSkips(ParsePredicate(s).rest);
      assert [ps[0]] + ps[1..] == ps;
    }
  }

  /** For every printable list of predicates and every choice of spaces, parsing its text gives the list back. */
  lemma TextIsAccepted(ps: seq<Predicate>, ls: seq<Layout>, blank: nat)
    requires AllPrintable(ps) && AllFit(ps, ls)
    ensures Parse(Text(ps, ls, blank)) == Ok(ps, [])
  {
    if ps == [] {
      SkipGap(blank, "");
    } else {
      var t := MoreText(ps[1..], ls[1..]);
      var s := PredicateText(ps[0], ls[0], t);
      MoreAccepted(ps[1..], ls[1..]);
      PredicateAccepted(ps[0], ls[0], t);
      PredicateStarts(ps[0], ls[0], t);
      SkipGap(ls[0].lead, s);
      MorePredicatesSkips(ParsePredicate(s).rest);
      assert [ps[0]] + ps[1..] == ps;
    }
  }

  // ---------------------------------------------------------------------
  // Everything accepted is a text of the grammar
  // ---------------------------------------------------------------------

  lemma {:induction false} Leading(s: string) returns (n: nat)
    ensures s == Gap(n, SkipSpaces(s))
    decreases |s|
  {
    if Starts(s, ' ') {
      n := Leading(s[1..]);
      n := n + 1;
      assert s == " " + s[1..];
    } else {
      n := 0;
    }
  }

  lemma {:induction false} GapSum(a: nat, b: nat, t: string)
    ensures Gap(a, Gap(b, t)) == Gap(a + b, t)
  {
    if a > 0 {
      GapSum(a - 1, b, t);
    }
  }

  lemma {:induction false} MoreValuesLayout(s: string) returns (after: nat, gaps: seq<Around>)
    requires ParseMoreValues(s).Ok?
    ensures var r := ParseMoreValues(s);
            |gaps| == |r.value| && s == Gap(after, MoreValuesText(r.value, gaps, r.rest))
    decreases |s|
  {
    after := Leading(s);
    var s1 := SkipSpaces(s);
    if Starts(s1, ')') {
      gaps := [];
      assert s1 == ")" + s1[1..];
    } else {
      var s2 := SkipSpaces(s1[1..]);
      var n := Span(s2, false);
      var before := Leading(s1[1..]);
      var after', gaps' := MoreValuesLayout(s2[n..]);
      gaps := [Around(before, after')] + gaps';
      ValueLaidOut(s1, ',', before, s2, n);
      var more := ParseMoreValues(s2[n..]);
      assert ParseMoreValues(s).value == [s2[..n]] + more.value;
      assert ([s2[..n]] + more.value)[1..] == more.value && gaps[1..] == gaps';
    }
  }

  lemma ValueLaidOut(s: string, c: char, before: nat, s2: string, n: nat)
    requires Starts(s, c) && s[1..] == Gap(before, s2) && n <= |s2|
    ensures s == [c] + Gap(before, s2[..n] + s2[n..])
  {
    assert s2 == s2[..n] + s2[n..];
  }

  lemma SetLayout(s: string) returns (inside: nat, gaps: seq<Around>)
    requires ParseValueSet(s).Ok?
    ensures var r := ParseValueSet(s);
            |gaps| == |r.value| && s == SetText(r.value, gaps, inside, r.rest)
  {
    var before := Leading(s[1..]);
    var s1 := SkipSpaces(s[1..]);
    inside := before;
    if Starts(s1, ')') {
      gaps := [];
      assert s1 == ")" + s1[1..] && s == "(" + s[1..];
    } else {
      var n := Span(s1, false);
      var after, gaps' := MoreValuesLayout(s1[n..]);
      gaps := [Around(before, after)] + gaps';
      ValueLaidOut(s, '(', before, s1, n);
      var more := ParseMoreValues(s1[n..]);
      assert ([s1[..n]] + more.value)[1..] == more.value && gaps[1..] == gaps';
    }
  }

  /** A word operator after `gap` spaces, of which there is at least one. */
  lemma WordLayout(key: string, gap: nat, s: string, n: nat) returns (l: Layout)
    requires gap > 0 && n <= |s| && ParseValueSet(SkipSpaces(s[n..])).Ok?
    ensures var r := ParseValueSet(SkipSpaces(s[n..]));
            && Fits(In(key, r.value), l) && l.beforeOp == gap && l.trail == 0
            && s == s[..n] + Gap(l.afterOp, SetText(r.value, l.around, l.inside, r.rest))
  {
    var afterOp := Leading(s[n..]);
    var inside, around := SetLayout(SkipSpaces(s[n..]));
    l := Layout(0, gap, afterOp, inside, around, 0);
    CutAt(s, n);
  }

  lemma CutAt(s: string, n: nat)
    requires n <= |s|
    ensures s == s[..n] + s[n..]
  {
  }

  lemma ValueLayout(gap: nat, s: string, n: nat) returns (l: Layout)
    requires n <= |s|
    ensures var s1 := SkipSpaces(s[n..]);
            && l.beforeOp == gap && l.trail == 0
            && s == s[..n] + Gap(l.afterOp, s1[..Span(s1, false)] + s1[Span(s1, false)..])
  {
    var afterOp := Leading(s[n..]);
    l := Layout(0, gap, afterOp, 0, [], 0);
    var s1 := SkipSpaces(s[n..]);
    assert s == s[..n] + s[n..] && s1 == s1[..Span(s1, false)] + s1[Span(s1, false)..];
  }

  lemma OperatorLayout(key: string, gap: nat, s: string) returns (l: Layout)
    requires ParseOperator(key, s).Ok? && !ParseOperator(key, s).value.Exists?
    requires s != [] && IsKeyChar(s[0]) ==> gap > 0
    ensures var r := ParseOperator(key, s);
            && Fits(r.value, l) && l.beforeOp == gap && l.trail == 0 && s == OperatorText(r.value, l, r.rest)
  {
    if s[0] == '!' {
      l := ValueLayout(gap, s, 2);
      Unequal(s);
    } else if s[0] == '=' {
      l := ValueLayout(gap, s, 1);
      assert s[..1] == "=";
    } else if Keyword(s, "in") {
      WordFirst(s, "in");
      l := WordLayout(key, gap, s, 2);
    } else {
      WordFirst(s, "notin");
      l := WordLayout(key, gap, s, 5);
    }
  }

  lemma Unequal(s: string)
    requires Starts(s, '!') && Starts(s[1..], '=')
    ensures s[..2] == "!="
  {
    assert s[1] == s[1..][0];
  }

  lemma WordFirst(s: string, word: string)
    requires word != [] && IsKeyChar(word[0]) && Keyword(s, word)
    ensures s[..|word|] == word && IsKeyChar(s[0])
  {
    assert s[0] == word[0];
  }

  lemma {:induction false} SpanEnds(s: string, key: bool)
    ensures var n := Span(s, key); n < |s| ==> !(if key then IsKeyChar(s[n]) else IsValueChar(s[n]))
  {
    if Span(s, key) > 0 {
      SpanEnds(s[1..], key);
    }
  }

  lemma PredicateLayout(s: string) returns (l: Layout)
    requires ParsePredicate(s).Ok?
    ensures var r := ParsePredicate(s);
            Fits(r.value, l) && s == Gap(l.lead, PredicateText(r.value, l, r.rest))
  {
    var lead := Leading(s);
    var s1 := SkipSpaces(s);
    if Starts(s1, '!') {
      l := Layout(lead, 0, 0, 0, [], 0);
      KeyLaidOut(s1[1..]);
      assert s1 == "!" + s1[1..];
    } else {
      KeyLaidOut(s1);
      l := KeyedLayout(s1);
      SameBare(ParsePredicate(s).value, l, l.(lead := lead), Gap(l.trail, ParsePredicate(s).rest));
      l := l.(lead := lead);
    }
  }

  lemma KeyLaidOut(s: string)
    requires ParseKey(s).Ok?
    ensures s == ParseKey(s).value + ParseKey(s).rest && Boundary(ParseKey(s).rest)
  {
    SpanEnds(s, true);
  }

  /** A predicate that starts with its key. */
  lemma KeyedLayout(s: string) returns (l: Layout)
    requires ParseKey(s).Ok? && ParseOperator(ParseKey(s).value, SkipSpaces(ParseKey(s).rest)).Ok?
    requires s == ParseKey(s).value + ParseKey(s).rest && Boundary(ParseKey(s).rest)
    ensures var r := ParseOperator(ParseKey(s).value, SkipSpaces(ParseKey(s).rest));
            Fits(r.value, l) && s == PredicateText(r.value, l, r.rest)
  {
    var key := ParseKey(s);
    var op := SkipSpaces(key.rest);
    var gap := Leading(key.rest);
    if ParseOperator(key.value, op).value.Exists? {
      l := Layout(0, 0, 0, 0, [], gap);
      ExistsOnly(key.value, op);
    } else {
      GapNeeded(key.rest, gap);
      l := OperatorLayout(key.value, gap, op);
      OperatorKey(key.value, op);
    }
  }

  lemma ExistsOnly(key: string, s: string)
    requires ParseOperator(key, s).Ok? && ParseOperator(key, s).value.Exists?
    ensures ParseOperator(key, s) == Ok(Exists(key), s)
  {
  }

  lemma OperatorKey(key: string, s: string)
    requires ParseOperator(key, s).Ok?
    ensures ParseOperator(key, s).value.key == key && !ParseOperator(key, s).value.NotExists?
  {
  }

  lemma GapNeeded(s: string, gap: nat)
    requires Boundary(s) && s == Gap(gap, SkipSpaces(s))
    ensures SkipSpaces(s) != [] && IsKeyChar(SkipSpaces(s)[0]) ==> gap > 0
  {
  }

  lemma SameBare(p: Predicate, l: Layout, l': Layout, t: string)
    requires Fits(p, l) && l' == l.(lead := l'.lead, trail := l'.trail)
    ensures Fits(p, l') && BareText(p, l', t) == BareText(p, l, t)
  {
  }

  /** Spaces before and after a predicate belong to it. */
  lemma Together(s: string, lead: nat, m: nat, l: Layout, p: Predicate, rest: string, t: string) returns (l': Layout)
    requires Fits(p, l) && s == Gap(lead, Gap(l.lead, PredicateText(p, l, rest))) && rest == Gap(m, t)
    ensures Fits(p, l') && s == Gap(l'.lead, PredicateText(p, l', t))
  {
    l' := l.(lead := lead + l.lead, trail := l.trail + m);
    GapSum(l.trail, m, t);
    GapSum(lead, l.lead, PredicateText(p, l, rest));
    SameBare(p, l, l', Gap(l'.trail, t));
  }

  lemma {:induction false} MoreLayout(s: string) returns (n: nat, ls: seq<Layout>)
    requires ParseMorePredicates(s).Ok?
    ensures var ps := ParseMorePredicates(s).value;
            AllFit(ps, ls) && s == Gap(n, MoreText(ps, ls))
    decreases |s|
  {
    n := Leading(s);
    var s1 := SkipSpaces(s);
    if s1 == [] {
      ls := [];
    } else {
      var lead := Leading(s1[1..]);
      var s2 := SkipSpaces(s1[1..]);
      var first := ParsePredicate(s2);
      var m, ls' := MoreLayout(first.rest);
      var l := PredicateLayout(s2);
      var ps' := ParseMorePredicates(first.rest).value;
      l := Together(s1[1..], lead, m, l, first.value, first.rest, MoreText(ps', ls'));
      ls := [l] + ls';
      assert ([first.value] + ps')[1..] == ps' && ls[1..] == ls';
      assert s1 == "," + s1[1..];
    }
  }

  lemma ParsedLayout(s: string) returns (ls: seq<Layout>, blank: nat)
    requires Parse(s).Ok?
    ensures AllFit(Parse(s).value, ls) && s == Text(Parse(s).value, ls, blank)
  {
    blank := Leading(s);
    var s1 := SkipSpaces(s);
    if s1 == [] {
      ls := [];
    } else {
      var first := ParsePredicate(s1);
      var m, ls' := MoreLayout(first.rest);
      var l := PredicateLayout(s1);
      var ps' := ParseMorePredicates(first.rest).value;
      l := Together(s, blank, m, l, first.value, first.rest, MoreText(ps', ls'));
      ls := [l] + ls';
      assert ([first.value] + ps')[1..] == ps' && ls[1..] == ls';
    }
  }

  // ---------------------------------------------------------------------
  // The parser decides the grammar
  // ---------------------------------------------------------------------

  /** The text is one of the list of predicates, with some choice of spaces. */
  ghost predicate IsTextOf(s: string, ps: seq<Predicate>)
  {
    exists ls: seq<Layout>, blank: nat :: AllFit(ps, ls) && s == Text(ps, ls, blank)
  }

  /** For every input and every list of predicates: parsing gives the list if and only if the input is a text of it. */
  lemma ParseIffText(s: string, ps: seq<Predicate>)
    ensures Parse(s) == Ok(ps, []) <==> AllPrintable(ps) && IsTextOf(s, ps)
  {
    if Parse(s) == Ok(ps, []) {
      ParsedIsPrintable(s);
      var ls, blank := ParsedLayout(s);
    } else if AllPrintable(ps) && IsTextOf(s, ps) {
      var ls: seq<Layout>, blank: nat :| AllFit(ps, ls) && s == Text(ps, ls, blank);
      TextIsAccepted(ps, ls, blank);
      assert false;
    }
  }

  /** Every input that is not a text of the grammar is rejected, and no other. */
  lemma RejectedIffNoText(s: string)
    ensures Parse(s).Err? <==> !exists ps :: AllPrintable(ps) && IsTextOf(s, ps)
  {
    if Parse(s).Ok? {
      ParsedIsPrintable(s);
      ParseIffText(s, Parse(s).value);
    } else {
      forall ps ensures !(AllPrintable(ps) && IsTextOf(s, ps)) {
        ParseIffText(s, ps);
      }
    }
  }

  /** So a text has one meaning. */
  lemma TextsAreUnambiguous(s: string, ps: seq<Predicate>, qs: seq<Predicate>)
    requires AllPrintable(ps) && AllPrintable(qs) && IsTextOf(s, ps) && IsTextOf(s, qs)
    ensures ps == qs
  {
    ParseIffText(s, ps);
    ParseIffText(s, qs);
  }
}
