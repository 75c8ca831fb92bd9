/** The selector parser object: a position advanced through the input, proved to compute the functions of Selector. */
module SelectorImpl {
  import opened Common
  import opened Spec = Selector

  datatype ParseResult<T> = Parsed(value: T) | Failed(message: string, position: nat)

  class Parser {
    const input: string
    var pos: nat

    constructor (input: string)
      ensures this.input == input && pos == 0
    {
      this.input := input;
      pos := 0;
    }

    ghost predicate Valid()
      reads this
    {
      pos <= |input|
    }

    ghost function Rest(): string
      requires Valid()
      reads this
    {
      input[pos..]
    }

    /** The result agrees with the functional parser, position included. */
    ghost predicate Agrees<T>(r: ParseResult<T>, spec: Result<T>)
      reads this
    {
      Valid() &&
      match spec
      case Ok(v, rest) => r == Parsed(v) && Rest() == rest
      case Err(m, at) => |at| <= |input| && r == Failed(m, |input| - |at|)
    }

    /** One element was read and `more` applies to the rest, or there is none left, or the input is malformed. */
    ghost predicate Continues<T(!new)>(r: Option<ParseResult<T>>, more: string -> Result<seq<T>>, spec: Result<seq<T>>)
      requires Valid()
      reads this
    {
      match r
      case None => spec == Ok([], Rest())
      case Some(Failed(m, at)) => spec.Err? && m == spec.message && |spec.at| <= |input| && at == |input| - |spec.at|
      case Some(Parsed(v)) => spec == Prepend([v], more(Rest()))
    }

    method SkipWhitespace()
      requires Valid()
      modifies this
      ensures Valid() && Rest() == SkipSpaces(old(Rest()))
    {
      while pos < |input| && input[pos] == ' '
        invariant Valid() && SkipSpaces(Rest()) == SkipSpaces(old(Rest()))
      {
        assert Rest()[1..] == input[pos + 1..];
        pos := pos + 1;
      }
    }

    /** Advances over key characters, or over value characters. */
    method TakeWord(key: bool) returns (word: string)
      requires Valid()
      modifies this
      ensures Valid() && old(pos) <= pos && word == input[old(pos)..pos]
      ensures var n := Span(old(Rest()), key); word == old(Rest())[..n] && Rest() == old(Rest())[n..]
    {
      var start := pos;
      ghost var s := Rest();
      while pos < |input| && (if key then IsKeyChar(input[pos]) else IsValueChar(input[pos]))
        invariant start <= pos <= |input| && pos - start + Span(Rest(), key) == Span(s, key)
      {
        assert Rest()[1..] == input[pos + 1..];
        pos := pos + 1;
      }
      word := input[start..pos];
      assert s[..pos - start] == word && s[pos - start..] == Rest();
    }

    method ParseKey() returns (r: ParseResult<string>)
      requires Valid()
      modifies this
      ensures Agrees(r, Spec.ParseKey(old(Rest())))
    {
      var start := pos;
      var word := TakeWord(true);
      if pos == start {
        return Failed("expected key", pos);
      }
      r := Parsed(word);
    }

    method ParseValueSet() returns (r: ParseResult<seq<string>>)
      requires Valid()
      modifies this
      ensures Agrees(r, Spec.ParseValueSet(old(Rest())))
    {
      if pos >= |input| || input[pos] != '(' {
        return Failed("expected '(' to start value set", pos);
      }
      assert Rest()[1..] == input[pos + 1..];
      pos := pos + 1;
      SkipWhitespace();
      if pos < |input| && input[pos] == ')' {
        assert Rest()[1..] == input[pos + 1..];
        pos := pos + 1;
        return Parsed([]);
      }
      var value := TakeWord(false);
      var more := ParseMoreValues([value]);
      r := more;
    }

    /** The loop over the remaining values, after those read so far. */
    method ParseMoreValues(first: seq<string>) returns (r: ParseResult<seq<string>>)
      requires Valid()
      modifies this
      ensures Agrees(r, Prepend(first, Spec.ParseMoreValues(old(Rest()))))
    {
      var values := first;
      ghost var whole := Prepend(first, Spec.ParseMoreValues(Rest()));
      while true
        invariant Valid() && Prepend(values, Spec.ParseMoreValues(Rest())) == whole
        decreases |input| - pos
      {
        var v := NextValue();
        if v.None? {
          assert values + [] == values;
          return Parsed(values);
        }
        if v.value.Failed? {
          return Failed(v.value.message, v.value.position);
        }
        PrependTwice(values, [v.value.value], Spec.ParseMoreValues(Rest()));
        values := values + [v.value.value];
      }
    }

    /** A comma and a value, or nothing at the closing parenthesis. */
    method NextValue() returns (r: Option<ParseResult<string>>)
      requires Valid()
      modifies this
      ensures Valid() && (r.Some? ==> r.value.Failed? || old(pos) < pos)
      ensures Continues(r, Spec.ParseMoreValues, Spec.ParseMoreValues(old(Rest())))
    {
      SkipWhitespace();
      if pos < |input| && input[pos] == ')' {
        assert Rest()[1..] == input[pos + 1..];
        pos := pos + 1;
        return None;
      }
      if pos >= |input| || input[pos] != ',' {
        return Some(Failed("expected ',' or ')' in value set", pos));
      }
      assert Rest()[1..] == input[pos + 1..];
      pos := pos + 1;
      SkipWhitespace();
      ghost var s := Rest();
      var value := TakeWord(false);
      NextValueStep(old(Rest()), s);
      r := Some(Parsed(value));
    }

    method ParsePredicate() returns (r: ParseResult<Predicate>)
      requires Valid()
      modifies this
      ensures Agrees(r, Spec.ParsePredicate(old(Rest())))
    {
      SkipWhitespace();
      if pos < |input| && input[pos] == '!' {
        assert Rest()[1..] == input[pos + 1..];
        pos := pos + 1;
        var key := ParseKey();
        return if key.Failed? then Failed(key.message, key.position) else Parsed(NotExists(key.value));
      }
      var key := ParseKey();
      if key.Failed? {
        return Failed(key.message, key.position);
      }
      SkipWhitespace();
      r := ParseOperator(key.value);
    }

    /** What follows the key decides the kind of predicate. */
    method ParseOperator(key: string) returns (r: ParseResult<Predicate>)
      requires Valid()
      modifies this
      ensures Agrees(r, Spec.ParseOperator(key, old(Rest())))
    {
      if pos >= |input| || input[pos] == ',' {
        return Parsed(Exists(key));
      }
      if input[pos] == '!' {
        assert Rest()[1..] == input[pos + 1..];
        pos := pos + 1;
        if pos >= |input| || input[pos] != '=' {
          return Failed("expected '=' after '!'", pos);
        }
        assert old(Rest())[2..] == input[pos + 1..];
        pos := pos + 1;
        SkipWhitespace();
        var value := TakeWord(false);
        return Parsed(NotEquals(key, value));
      }
      if input[pos] == '=' {
        assert Rest()[1..] == input[pos + 1..];
        pos := pos + 1;
        SkipWhitespace();
        var value := TakeWord(false);
        return Parsed(Equals(key, value));
      }
      var remaining := input[pos..];
      if Keyword(remaining, "in") {
        var values := ParseSetAfter(2);
        return if values.Failed? then Failed(values.message, values.position) else Parsed(In(key, values.value));
      }
      if Keyword(remaining, "notin") {
        var values := ParseSetAfter(5);
        return if values.Failed? then Failed(values.message, values.position) else Parsed(NotIn(key, values.value));
      }
      r := Failed("expected operator: '=', '!=', 'in', or 'notin'", pos);
    }

    /** Skips to a later position, and over the spaces there. */
    method AdvanceTo(next: nat)
      requires Valid() && pos <= next <= |input|
      modifies this
      ensures Valid() && Rest() == SkipSpaces(old(Rest())[next - old(pos)..])
    {
      DropTwice(input, pos, next - pos);
      pos := next;
      SkipWhitespace();
    }

    method ParseSetAfter(n: nat) returns (r: ParseResult<seq<string>>)
      requires Valid() && n <= |Rest()|
      modifies this
      ensures Agrees(r, Spec.ParseValueSet(SkipSpaces(old(Rest())[n..])))
    {
      ghost var rest := Rest();
      AdvanceTo(pos + n);
      assert Rest() == SkipSpaces(rest[n..]);
      r := ParseValueSet();
    }

    method ParseSelector() returns (r: ParseResult<seq<Predicate>>)
      requires pos == 0
      modifies this
      ensures Agrees(r, Parse(input))
    {
      assert Rest() == input;
      SkipWhitespace();
      if pos >= |input| {
        return Parsed([]);
      }
      var first := ParsePredicate();
      if first.Failed? {
        return Failed(first.message, first.position);
      }
      r := ParseMorePredicates([first.value]);
    }

    /** The loop over the remaining predicates, after those read so far. */
    method ParseMorePredicates(first: seq<Predicate>) returns (r: ParseResult<seq<Predicate>>)
      requires Valid()
      modifies this
      ensures Agrees(r, Prepend(first, Spec.ParseMorePredicates(old(Rest()))))
    {
      var predicates := first;
      ghost var whole := Prepend(first, Spec.ParseMorePredicates(Rest()));
      while true
        invariant Valid() && Prepend(predicates, Spec.ParseMorePredicates(Rest())) == whole
        decreases |input| - pos
      {
        var p := NextPredicate();
        if p.None? {
          assert predicates + [] == predicates;
          return Parsed(predicates);
        }
        if p.value.Failed? {
          return Failed(p.value.message, p.value.position);
        }
        PrependTwice(predicates, [p.value.value], Spec.ParseMorePredicates(Rest()));
        predicates := predicates + [p.value.value];
      }
    }

    /** A comma and a predicate, or nothing at the end of the input. */
    method NextPredicate() returns (r: Option<ParseResult<Predicate>>)
      requires Valid()
      modifies this
      ensures Valid() && (r.Some? ==> r.value.Failed? || old(pos) < pos)
      ensures Continues(r, Spec.ParseMorePredicates, Spec.ParseMorePredicates(old(Rest())))
    {
      SkipWhitespace();
      if pos >= |input| {
        return None;
      }
      if input[pos] != ',' {
        return Some(Failed("expected ',' or end of input", pos));
      }
      assert Rest()[1..] == input[pos + 1..];
      pos := pos + 1;
      SkipWhitespace();
      if pos >= |input| {
        return Some(Failed("unexpected end of input after ','", pos));
      }
      ghost var s := Rest();
      var p := ParsePredicate();
      NextPredicateStep(old(Rest()), s, Spec.ParsePredicate(s));
      r := Some(p);
    }
  }

  lemma NextValueStep(s: string, t: string)
    requires Starts(SkipSpaces(s), ',') && t == SkipSpaces(SkipSpaces(s)[1..])
    ensures var n := Span(t, false); ParseMoreValues(s) == Prepend([t[..n]], ParseMoreValues(t[n..]))
  {
  }

  lemma NextPredicateStep(s: string, t: string, r: Result<Predicate>)
    requires Starts(SkipSpaces(s), ',') && t == SkipSpaces(SkipSpaces(s)[1..]) && t != [] && r == ParsePredicate(t)
    ensures r.Ok? ==> |r.rest| < |t| && ParseMorePredicates(s) == Prepend([r.value], ParseMorePredicates(r.rest))
    ensures r.Err? ==> ParseMorePredicates(s) == Err(r.message, r.at)
  {
  }

  lemma PrependTwice<T>(a: seq<T>, b: seq<T>, r: Result<seq<T>>)
    ensures Prepend(a, Prepend(b, r)) == Prepend(a + b, r)
  {
    if r.Ok? {
      assert a + (b + r.value) == a + b + r.value;
    }
  }
}
