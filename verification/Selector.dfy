/**
 * Label selectors: printing, and the recursive-descent parser as functions from the unread input to a
 * result and what is left unread. Input is taken to be ASCII. The parser object is in SelectorImpl.dfy.
 */
module Selector {
  import opened Common

  datatype Predicate =
    | Equals(key: string, value: string)
    | NotEquals(key: string, value: string)
    | In(key: string, values: seq<string>)
    | NotIn(key: string, values: seq<string>)
    | Exists(key: string)
    | NotExists(key: string)

  /** `at` is the input that was left unread when the error was found; it determines the reported position. */
  datatype Result<T> = Ok(value: T, rest: string) | Err(message: string, at: string)

  predicate IsAlphanumeric(c: char) { 'a' <= c <= 'z' || 'A' <= c <= 'Z' || '0' <= c <= '9' }

  predicate IsValueChar(c: char) { IsAlphanumeric(c) || c == '_' || c == '-' || c == '.' }

  predicate IsKeyChar(c: char) { IsValueChar(c) || c == '/' }

  /** The two alphabets, by code: digits, letters, '-', '.' and '_', and for keys also '/'. */
  lemma Alphabets(c: char)
    ensures var n := c as int;
            && (IsValueChar(c) <==> 0x30 <= n < 0x3a || 0x41 <= n < 0x5b || 0x61 <= n < 0x7b || n in {0x2d, 0x2e, 0x5f})
            && (IsKeyChar(c) <==> IsValueChar(c) || n == 0x2f)
  {
  }

  // ---------------------------------------------------------------------
  // Printing
  // ---------------------------------------------------------------------

  function Join(values: seq<string>): string
  {
    if values == [] then "" else if |values| == 1 then values[0] else values[0] + "," + Join(values[1..])
  }

  function PrintSet(values: seq<string>): string { "(" + (Join(values) + ")") }

  function PrintPredicate(p: Predicate): string
  {
    match p
    case Equals(k, v) => k + ("=" + v)
    case NotEquals(k, v) => k + ("!=" + v)
    case In(k, vs) => k + (" " + ("in " + PrintSet(vs)))
    case NotIn(k, vs) => k + (" " + ("notin " + PrintSet(vs)))
    case Exists(k) => k
    case NotExists(k) => "!" + k
  }

  function Print(ps: seq<Predicate>): string
  {
    if ps == [] then ""
    else if |ps| == 1 then PrintPredicate(ps[0])
    else PrintPredicate(ps[0]) + "," + Print(ps[1..])
  }

  // ---------------------------------------------------------------------
  // Parsing
  // ---------------------------------------------------------------------

  function SkipSpaces(s: string): (r: string)
    ensures |r| <= |s|
  {
    if s != [] && s[0] == ' ' then SkipSpaces(s[1..]) else s
  }

  /** The length of the longest prefix of key characters, or of value characters. */
  function Span(s: string, key: bool): (n: nat)
    ensures n <= |s|
  {
    if s != [] && (if key then IsKeyChar(s[0]) else IsValueChar(s[0])) then 1 + Span(s[1..], key) else 0
  }

  function ParseKey(s: string): Result<string>
  {
    var n := Span(s, true);
    if n == 0 then Err("expected key", s) else Ok(s[..n], s[n..])
  }

  predicate Starts(s: string, c: char) { s != [] && s[0] == c }

  /** Puts what was read earlier in front of the rest of the list. */
  function Prepend<T>(first: seq<T>, r: Result<seq<T>>): Result<seq<T>>
  {
    match r
    case Err(m, at) => Err(m, at)
    case Ok(others, rest) => Ok(first + others, rest)
  }

  /** After the first value of a set: more values, up to the closing parenthesis. */
  function ParseMoreValues(s: string): (r: Result<seq<string>>)
    ensures r.Ok? ==> |r.rest| < |s|
    decreases |s|
  {
    var s := SkipSpaces(s);
    if Starts(s, ')') then Ok([], s[1..])
    else if Starts(s, ',') then
      var s := SkipSpaces(s[1..]);
      var n := Span(s, false);
      Prepend([s[..n]], ParseMoreValues(s[n..]))
    else Err("expected ',' or ')' in value set", s)
  }

  function ParseValueSet(s: string): (r: Result<seq<string>>)
    ensures r.Ok? ==> |r.rest| < |s|
  {
    if !Starts(s, '(') then Err("expected '(' to start value set", s)
    else
      var s := SkipSpaces(s[1..]);
      if Starts(s, ')') then Ok([], s[1..])
      else
        var n := Span(s, false);
        Prepend([s[..n]], ParseMoreValues(s[n..]))
  }

  /** The word is next, and ends there or is followed by a space or a parenthesis. */
  predicate Keyword(s: string, word: string)
  {
    word <= s && (|s| == |word| || s[|word|] == ' ' || s[|word|] == '(')
  }

  /** What follows a key: `s` has no leading space. */
  function ParseOperator(key: string, s: string): (r: Result<Predicate>)
    ensures r.Ok? ==> |r.rest| <= |s|
  {
    if s == [] || s[0] == ',' then Ok(Exists(key), s)
    else if s[0] == '!' then
      if !Starts(s[1..], '=') then Err("expected '=' after '!'", s[1..])
      else
        var s := SkipSpaces(s[2..]);
        var n := Span(s, false);
        Ok(NotEquals(key, s[..n]), s[n..])
    else if s[0] == '=' then
      var s := SkipSpaces(s[1..]);
      var n := Span(s, false);
      Ok(Equals(key, s[..n]), s[n..])
    else if Keyword(s, "in") then
      match ParseValueSet(SkipSpaces(s[2..]))
      case Err(m, at) => Err(m, at)
      case Ok(vs, rest) => Ok(In(key, vs), rest)
    else if Keyword(s, "notin") then
      match ParseValueSet(SkipSpaces(s[5..]))
      case Err(m, at) => Err(m, at)
      case Ok(vs, rest) => Ok(NotIn(key, vs), rest)
    else Err("expected operator: '=', '!=', 'in', or 'notin'", s)
  }

  function ParsePredicate(s: string): (r: Result<Predicate>)
    ensures r.Ok? ==> |r.rest| < |s|
  {
    var s := SkipSpaces(s);
    if Starts(s, '!') then
      match ParseKey(s[1..])
      case Err(m, at) => Err(m, at)
      case Ok(key, rest) => Ok(NotExists(key), rest)
    else
      match ParseKey(s)
      case Err(m, at) => Err(m, at)
      case Ok(key, rest) => ParseOperator(key, SkipSpaces(rest))
  }

  function ParseMorePredicates(s: string): Result<seq<Predicate>>
    decreases |s|
  {
    var s := SkipSpaces(s);
    if s == [] then Ok([], s)
    else if s[0] != ',' then Err("expected ',' or end of input", s)
    else
      var s := SkipSpaces(s[1..]);
      if s == [] then Err("unexpected end of input after ','", s)
      else
        match ParsePredicate(s)
        case Err(m, at) => Err(m, at)
        case Ok(p, rest) =>
          Prepend([p], ParseMorePredicates(rest))
  }

  function Parse(input: string): Result<seq<Predicate>>
  {
    var s := SkipSpaces(input);
    if s == [] then Ok([], s)
    else
      match ParsePredicate(s)
      case Err(m, at) => Err(m, at)
      case Ok(p, rest) =>
        Prepend([p], ParseMorePredicates(rest))
  }

  // ---------------------------------------------------------------------
  // Printable selectors
  // ---------------------------------------------------------------------

  predicate KeyWord(s: string) { s != [] && forall i :: 0 <= i < |s| ==> IsKeyChar(s[i]) }

  predicate ValueWord(s: string) { forall i :: 0 <= i < |s| ==> IsValueChar(s[i]) }

  predicate ValueWords(vs: seq<string>)
  {
    vs != [""] && forall i :: 0 <= i < |vs| ==> ValueWord(vs[i])
  }

  /** A key over the key alphabet, values over the value alphabet, and no value set holding just the empty string. */
  predicate Printable(p: Predicate)
  {
    KeyWord(p.key) &&
    match p
    case Equals(_, v) => ValueWord(v)
    case NotEquals(_, v) => ValueWord(v)
    case In(_, vs) => ValueWords(vs)
    case NotIn(_, vs) => ValueWords(vs)
    case _ => true
  }

  predicate AllPrintable(ps: seq<Predicate>) { forall i :: 0 <= i < |ps| ==> Printable(ps[i]) }

  /** Where a word ends: at the end of input or at a character that no word contains. */
  predicate Boundary(t: string) { t == [] || !IsKeyChar(t[0]) }

  lemma {:induction false} SpanWord(w: string, t: string, key: bool)
    requires if key then forall i :: 0 <= i < |w| ==> IsKeyChar(w[i]) else ValueWord(w)
    requires Boundary(t)
    ensures Span(w + t, key) == |w|
    ensures (w + t)[..|w|] == w && (w + t)[|w|..] == t
  {
    if w == [] {
      assert w + t == t;
    } else {
      assert (w + t)[1..] == w[1..] + t;
      SpanWord(w[1..], t, key);
    }
  }

  lemma ParseKeyWord(k: string, t: string)
    requires KeyWord(k) && Boundary(t)
    ensures ParseKey(k + t) == Ok(k, t)
  {
    SpanWord(k, t, true);
  }

  lemma {:induction false} SpanChars(s: string, key: bool)
    ensures forall i :: 0 <= i < Span(s, key) ==> if key then IsKeyChar(s[i]) else IsValueChar(s[i])
  {
    if Span(s, key) > 0 {
      SpanChars(s[1..], key);
    }
  }

  // ---------------------------------------------------------------------
  // Round trip
  // ---------------------------------------------------------------------

  /** The values after the first, each with its comma, and the closing parenthesis. */
  function Tail(vs: seq<string>): string
  {
    if vs == [] then ")" else "," + (vs[0] + Tail(vs[1..]))
  }

  lemma {:induction false} JoinTail(vs: seq<string>)
    requires vs != []
    ensures Join(vs) + ")" == vs[0] + Tail(vs[1..])
  {
    if |vs| > 1 {
      JoinTail(vs[1..]);
      assert Join(vs) + ")" == vs[0] + ("," + (Join(vs[1..]) + ")"));
    } else {
      assert vs[1..] == [];
    }
  }

  lemma Consumed(c: char, s: string)
    ensures ([c] + s)[1..] == s
    ensures c != ' ' ==> SkipSpaces([c] + s) == [c] + s
  {
  }

  lemma MoreValuesStep(v: string, u: string, vs: seq<string>, t: string)
    requires ValueWord(v) && Boundary(u) && !Starts(v + u, ' ')
    requires ParseMoreValues(u) == Ok(vs, t)
    ensures ParseMoreValues("," + (v + u)) == Ok([v] + vs, t)
  {
    Consumed(',', v + u);
    SpanWord(v, u, false);
    assert SkipSpaces(v + u) == v + u;
  }

  lemma TailStarts(vs: seq<string>, t: string)
    ensures Boundary(Tail(vs) + t) && !Starts(Tail(vs) + t, ' ')
  {
    assert Tail(vs)[0] == if vs == [] then ')' else ',';
    assert (Tail(vs) + t)[0] == Tail(vs)[0];
  }

  lemma WordThenTail(v: string, vs: seq<string>, t: string)
    requires ValueWord(v)
    ensures !Starts(v + (Tail(vs) + t), ' ')
  {
    TailStarts(vs, t);
    if v != [] {
      assert (v + (Tail(vs) + t))[0] == v[0];
    } else {
      assert v + (Tail(vs) + t) == Tail(vs) + t;
    }
  }

  lemma {:induction false} MoreValuesRoundTrip(vs: seq<string>, t: string)
    requires forall i :: 0 <= i < |vs| ==> ValueWord(vs[i])
    ensures ParseMoreValues(Tail(vs) + t) == Ok(vs, t)
  {
    if vs == [] {
      Consumed(')', t);
      assert Tail(vs) + t == [')'] + t;
    } else {
      MoreValuesRoundTrip(vs[1..], t);
      TailStarts(vs[1..], t);
      WordThenTail(vs[0], vs[1..], t);
      MoreValuesStep(vs[0], Tail(vs[1..]) + t, vs[1..], t);
      Associate(",", vs[0] + Tail(vs[1..]), t);
      Associate(vs[0], Tail(vs[1..]), t);
      assert [vs[0]] + vs[1..] == vs;
    }
  }

  lemma ValueSetStep(v: string, u: string, vs: seq<string>, t: string)
    requires ValueWord(v) && Boundary(u) && !Starts(v + u, ' ') && !Starts(v + u, ')')
    requires ParseMoreValues(u) == Ok(vs, t)
    ensures ParseValueSet("(" + (v + u)) == Ok([v] + vs, t)
  {
    Consumed('(', v + u);
    SpanWord(v, u, false);
    assert SkipSpaces(v + u) == v + u;
  }

  lemma ValueSetRoundTrip(vs: seq<string>, t: string)
    requires ValueWords(vs)
    ensures ParseValueSet(PrintSet(vs) + t) == Ok(vs, t)
  {
    if vs == [] {
      Consumed('(', [')'] + t);
      Consumed(')', t);
      assert PrintSet(vs) + t == ['('] + ([')'] + t);
    } else {
      MoreValuesRoundTrip(vs[1..], t);
      TailStarts(vs[1..], t);
      NotClosing(vs, t);
      ValueSetStep(vs[0], Tail(vs[1..]) + t, vs[1..], t);
      PrintedSet(vs, t);
      assert [vs[0]] + vs[1..] == vs;
    }
  }

  lemma PrintedSet(vs: seq<string>, t: string)
    requires vs != []
    ensures PrintSet(vs) + t == "(" + (vs[0] + (Tail(vs[1..]) + t))
  {
    JoinTail(vs);
    Associate("(", vs[0] + Tail(vs[1..]), t);
    Associate(vs[0], Tail(vs[1..]), t);
  }

  /** A printed value set never reads as empty: its first value is not empty, or a comma follows. */
  lemma NotClosing(vs: seq<string>, t: string)
    requires ValueWords(vs) && vs != []
    ensures var s := vs[0] + (Tail(vs[1..]) + t); !Starts(s, ')') && !Starts(s, ' ')
  {
    var s := vs[0] + (Tail(vs[1..]) + t);
    if vs[0] != [] {
      assert s[0] == vs[0][0];
    } else {
      assert vs == [""] + vs[1..];
      assert vs[1..] != [];
      assert s == Tail(vs[1..]) + t;
      assert Tail(vs[1..])[0] == ',' && s[0] == Tail(vs[1..])[0];
    }
  }

  /** The text after a predicate: nothing, or the comma before the next one. */
  predicate Follows(t: string) { t == [] || t[0] == ',' }

  lemma EqualsRoundTrip(k: string, v: string, t: string)
    requires KeyWord(k) && ValueWord(v) && Follows(t)
    ensures ParseOperator(k, "=" + (v + t)) == Ok(Equals(k, v), t)
    ensures ParseOperator(k, "!=" + (v + t)) == Ok(NotEquals(k, v), t)
  {
    SpanWord(v, t, false);
    assert ("=" + (v + t))[1..] == v + t;
    assert ("!=" + (v + t))[2..] == v + t;
    assert ("!=" + (v + t))[1..] == "=" + (v + t);
    assert SkipSpaces(v + t) == v + t by {
      assert v != [] ==> (v + t)[0] == v[0];
      assert v == [] ==> v + t == t;
    }
  }

  lemma SetRoundTrip(k: string, vs: seq<string>, t: string)
    requires ValueWords(vs)
    ensures ParseOperator(k, "in " + (PrintSet(vs) + t)) == Ok(In(k, vs), t)
    ensures ParseOperator(k, "notin " + (PrintSet(vs) + t)) == Ok(NotIn(k, vs), t)
  {
    var body := PrintSet(vs) + t;
    ValueSetRoundTrip(vs, t);
    assert body[0] == PrintSet(vs)[0] == '(';
    WordOperator(k, body);
  }

  /** A keyword and a space, then a value set. */
  lemma WordOperator(k: string, body: string)
    requires Starts(body, '(') && ParseValueSet(body).Ok?
    ensures ParseOperator(k, "in " + body) == Ok(In(k, ParseValueSet(body).value), ParseValueSet(body).rest)
    ensures ParseOperator(k, "notin " + body) == Ok(NotIn(k, ParseValueSet(body).value), ParseValueSet(body).rest)
  {
    InKeyword(body);
    Consumed(' ', body);
    assert SkipSpaces(" " + body) == body;
    assert ("in " + body)[0] == 'i' && ("notin " + body)[0] == 'n';
  }

  lemma InKeyword(body: string)
    ensures Keyword("in " + body, "in") && ("in " + body)[2..] == " " + body
    ensures Keyword("notin " + body, "notin") && ("notin " + body)[5..] == " " + body
    ensures !Keyword("notin " + body, "in")
  {
    assert ("notin " + body)[0] == 'n';
  }

  lemma AfterKey(k: string, s: string)
    requires KeyWord(k) && Boundary(s)
    ensures ParsePredicate(k + s) == ParseOperator(k, SkipSpaces(s))
  {
    assert (k + s)[0] == k[0];
    ParseKeyWord(k, s);
  }

  lemma PredicateRoundTrip(p: Predicate, t: string)
    requires Printable(p) && Follows(t)
    ensures ParsePredicate(PrintPredicate(p) + t) == Ok(p, t)
  {
    match p
    case Equals(k, v) =>
      EqualsRoundTrip(k, v, t);
      AfterKey(k, "=" + (v + t));
      Assoc3(k, "=", v, t);
    case NotEquals(k, v) =>
      EqualsRoundTrip(k, v, t);
      AfterKey(k, "!=" + (v + t));
      Assoc3(k, "!=", v, t);
    case In(k, vs) =>
      WordRoundTrip(k, "in ", vs, t);
      SetRoundTrip(k, vs, t);
    case NotIn(k, vs) =>
      WordRoundTrip(k, "notin ", vs, t);
      SetRoundTrip(k, vs, t);
    case Exists(k) =>
      AfterKey(k, t);
    case NotExists(k) =>
      Consumed('!', k + t);
      ParseKeyWord(k, t);
      Associate("!", k, t);
  }

  lemma Assoc3(a: string, b: string, c: string, d: string)
    ensures a + (b + c) + d == a + (b + (c + d))
  {
  }

  lemma WordRoundTrip(k: string, word: string, vs: seq<string>, t: string)
    requires KeyWord(k) && word != [] && word[0] != ' '
    ensures ParsePredicate(k + (" " + (word + PrintSet(vs))) + t) == ParseOperator(k, word + (PrintSet(vs) + t))
  {
    var s := word + (PrintSet(vs) + t);
    assert s[0] == word[0];
    SpacedRoundTrip(k, s);
    Assoc3(k, " ", word + PrintSet(vs), t);
    Associate(word, PrintSet(vs), t);
  }

  lemma SpacedRoundTrip(k: string, s: string)
    requires KeyWord(k) && s != [] && s[0] != ' '
    ensures ParsePredicate(k + (" " + s)) == ParseOperator(k, s)
  {
    AfterKey(k, " " + s);
    Consumed(' ', s);
  }

  /** The predicates after the first, each with its comma. */
  function PrintRest(ps: seq<Predicate>): string
  {
    if ps == [] then "" else "," + (PrintPredicate(ps[0]) + PrintRest(ps[1..]))
  }

  lemma {:induction false} PrintIsRest(ps: seq<Predicate>)
    requires ps != []
    ensures Print(ps) == PrintPredicate(ps[0]) + PrintRest(ps[1..])
  {
    if |ps| > 1 {
      PrintIsRest(ps[1..]);
    } else {
      assert ps[1..] == [];
    }
  }

  /** A printed predicate starts with its key or with '!', never with a space. */
  lemma PrintStarts(p: Predicate, t: string)
    requires Printable(p)
    ensures PrintPredicate(p) + t != [] && !Starts(PrintPredicate(p) + t, ' ')
  {
    var text := PrintPredicate(p);
    assert p.NotExists? ==> text[0] == '!';
    assert !p.NotExists? ==> text[0] == p.key[0];
    assert (text + t)[0] == text[0];
  }

  lemma {:induction false} RestRoundTrip(ps: seq<Predicate>)
    requires AllPrintable(ps)
    ensures ParseMorePredicates(PrintRest(ps)) == Ok(ps, [])
  {
    if ps != [] {
      var s := PrintPredicate(ps[0]) + PrintRest(ps[1..]);
      RestRoundTrip(ps[1..]);
      PredicateRoundTrip(ps[0], PrintRest(ps[1..]));
      PrintStarts(ps[0], PrintRest(ps[1..]));
      Consumed(',', s);
      assert [ps[0]] + ps[1..] == ps;
    }
  }

  lemma RoundTrip(ps: seq<Predicate>)
    requires AllPrintable(ps)
    ensures Parse(Print(ps)) == Ok(ps, [])
  {
    if ps != [] {
      PrintIsRest(ps);
      RestRoundTrip(ps[1..]);
      PredicateRoundTrip(ps[0], PrintRest(ps[1..]));
      PrintStarts(ps[0], PrintRest(ps[1..]));
      assert [ps[0]] + ps[1..] == ps;
    }
  }

  // ---------------------------------------------------------------------
  // Everything parsed is printable
  // ---------------------------------------------------------------------

  lemma {:induction false} MoreValuesPrintable(s: string)
    ensures var r := ParseMoreValues(s); r.Ok? ==> forall i :: 0 <= i < |r.value| ==> ValueWord(r.value[i])
    ensures var r := ParseMoreValues(s); r.Ok? && r.value == [] ==> Starts(SkipSpaces(s), ')')
    decreases |s|
  {
    var s1 := SkipSpaces(s);
    if Starts(s1, ',') {
      var s2 := SkipSpaces(s1[1..]);
      SpanChars(s2, false);
      MoreValuesPrintable(s2[Span(s2, false)..]);
    }
  }

  lemma ValueSetPrintable(s: string)
    ensures var r := ParseValueSet(s); r.Ok? ==> ValueWords(r.value)
  {
    if Starts(s, '(') {
      var s1 := SkipSpaces(s[1..]);
      if !Starts(s1, ')') {
        var n := Span(s1, false);
        SpanChars(s1, false);
        MoreValuesPrintable(s1[n..]);
        var more := ParseMoreValues(s1[n..]);
        if more.Ok? && [s1[..n]] + more.value == [""] {
          assert |[s1[..n]] + more.value| == 1 && ([s1[..n]] + more.value)[0] == s1[..n];
          assert n == 0 && s1[n..] == s1;
          SkipTwice(s[1..]);
        }
      }
    }
  }

  lemma {:induction false} SkipTwice(s: string)
    ensures SkipSpaces(SkipSpaces(s)) == SkipSpaces(s)
  {
    if Starts(s, ' ') {
      SkipTwice(s[1..]);
    }
  }

  lemma OperatorPrintable(key: string, s: string)
    requires KeyWord(key)
    ensures var r := ParseOperator(key, s); r.Ok? ==> Printable(r.value)
  {
    if s != [] && s[0] == '!' && Starts(s[1..], '=') {
      SpanChars(SkipSpaces(s[2..]), false);
    } else if Starts(s, '=') {
      SpanChars(SkipSpaces(s[1..]), false);
    } else if Keyword(s, "in") {
      ValueSetPrintable(SkipSpaces(s[2..]));
    } else if Keyword(s, "notin") {
      ValueSetPrintable(SkipSpaces(s[5..]));
    }
  }

  lemma ParsedKey(s: string)
    ensures var r := ParseKey(s); r.Ok? ==> KeyWord(r.value)
  {
    SpanChars(s, true);
  }

  lemma PredicatePrintable(s: string)
    ensures var r := ParsePredicate(s); r.Ok? ==> Printable(r.value)
  {
    var s1 := SkipSpaces(s);
    if Starts(s1, '!') {
      ParsedKey(s1[1..]);
    } else {
      ParsedKey(s1);
      if ParseKey(s1).Ok? {
        OperatorPrintable(ParseKey(s1).value, SkipSpaces(ParseKey(s1).rest));
      }
    }
  }

  lemma {:induction false} MorePredicatesPrintable(s: string)
    ensures var r := ParseMorePredicates(s); r.Ok? ==> AllPrintable(r.value) && r.rest == []
    decreases |s|
  {
    var s1 := SkipSpaces(s);
    if Starts(s1, ',') {
      var s2 := SkipSpaces(s1[1..]);
      if s2 != [] && ParsePredicate(s2).Ok? {
        PredicatePrintable(s2);
        MorePredicatesPrintable(ParsePredicate(s2).rest);
      }
    }
  }

  lemma ParsedIsPrintable(input: string)
    ensures var r := Parse(input); r.Ok? ==> AllPrintable(r.value) && r.rest == []
  {
    var s := SkipSpaces(input);
    if s != [] && ParsePredicate(s).Ok? {
      PredicatePrintable(s);
      MorePredicatesPrintable(ParsePredicate(s).rest);
    }
  }

  /** Parsing a printed selector gives it back exactly when the selector is printable. */
  lemma RoundTripIffPrintable(ps: seq<Predicate>)
    ensures Parse(Print(ps)) == Ok(ps, []) <==> AllPrintable(ps)
  {
    ParsedIsPrintable(Print(ps));
    if AllPrintable(ps) {
      RoundTrip(ps);
    }
  }

  /** Print then parse is the identity on everything the parser accepts. */
  lemma ParsePrintParse(input: string)
    requires Parse(input).Ok?
    ensures Parse(Print(Parse(input).value)) == Ok(Parse(input).value, [])
  {
    ParsedIsPrintable(input);
    RoundTrip(Parse(input).value);
  }
}
