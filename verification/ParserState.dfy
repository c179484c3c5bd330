/** The parser in the form the source gives it: a lexer that moves along the
    text, one token of lookahead and a nesting depth, all updated in place. */
module ParserState {
  import opened Platforms
  import opened Syntax
  import opened Lexing
  import opened Parsing
  import opened ParseRules

  class Parser {
    const lexer: Lexer
    var token: Token
    var depth: nat
    ghost var rest: seq<Token> // the tokens yet to be consumed

    constructor (lexer: Lexer, token: Token)
      requires lexer.position <= |lexer.source| && !token.Stray?
      ensures this.lexer == lexer && this.token == token && depth == 0 && Valid()
      ensures rest == if token.End? then [token] else [token] + Tokens(lexer.platform, lexer.source[lexer.position..])
    {
      this.lexer, this.token, depth := lexer, token, 0;
      rest := if token.End? then [token] else [token] + Tokens(lexer.platform, lexer.source[lexer.position..]);
    }

    ghost predicate Valid()
      reads this, lexer
    {
      && depth <= MAX_NESTING && !token.Stray?
      && rest != [] && rest[0] == token
      && lexer.position <= |lexer.source| && Linked(lexer, rest)
    }

    /** `advance`; false when the lexer throws. */
    method Move() returns (ok: bool)
      requires Valid() && !token.End?
      modifies this`token, this`rest, lexer`position
      ensures ok <==> Advance(old(rest)).Some?
      ensures ok ==> Valid() && rest == Advance(old(rest)).value
    {
      ghost var ahead := Tokens(lexer.platform, lexer.source[lexer.position..]);
      token := lexer.NextToken();
      rest := rest[1..];
      assert rest == ahead;
      ok := !token.Stray?;
    }

    method Eat(text: string) returns (ok: bool)
      requires Valid()
      modifies this`token, this`rest, lexer`position
      ensures ok <==> Expect(old(rest), text).Some?
      ensures ok ==> Valid() && rest == Expect(old(rest), text).value
    {
      if token != Symbol(text) { return false; }
      ok := Move();
    }

    /** A parsing method's result, with the tokens it left. */
    ghost function Outcome<T>(r: Option<T>): Parsed<T>
      reads this
    {
      if r.Some? then Parsed(r.value, rest) else Failed
    }

    /** `expression(minimum)`: a primary, then postfix and binary operators. */
    method ParseExpression(minimum: nat) returns (r: Option<Expr>)
      requires Valid()
      modifies this, lexer`position
      ensures depth == old(depth)
      ensures r.Some? ==> Valid()
      ensures ExpressionIs(lexer.platform, old(rest), MAX_NESTING - depth, minimum, Outcome(r))
      decreases |rest|, 3
    {
      if depth == MAX_NESTING { return None; }
      ghost var before := rest;
      depth := depth + 1;
      ghost var levels := MAX_NESTING - depth;
      r := ParsePrimary();
      assert Primary(lexer.platform, before, levels) == Outcome(r);
      if r.Some? {
        ghost var middle, node := rest, r.value;
        r := ParseSuffixes(r.value, minimum);
        assert Suffixes(lexer.platform, node, middle, levels, minimum) == Outcome(r);
      }
      depth := depth - 1;
    }

    method ParsePrimary() returns (r: Option<Expr>)
      requires Valid()
      modifies this, lexer`position
      ensures depth == old(depth)
      ensures r.Some? ==> Valid()
      ensures PrimaryIs(lexer.platform, old(rest), MAX_NESTING - depth, Outcome(r))
      decreases |rest|, 2
    {
      var first := token;
      if first.End? { return None; }
      var ok := Move();
      if !ok { return None; }
      ghost var after, levels := rest, MAX_NESTING - depth;
      match first
      case Text(value) => return Some(Literal(Str(value)));
      case Numeral(text) => return Some(Literal(Num(lexer.platform.toNumber(text))));
      case Name(text) => return Some(NameNode(text));
      case Symbol(text) =>
        if text == "-" || text == "!" {
          r := ParseExpression(7);
          assert Expression(lexer.platform, after, levels, 7) == Outcome(r);
          if r.Some? { r := Some(Unary(text, r.value)); }
        } else if text == "(" {
          r := ParseExpression(0);
          assert Expression(lexer.platform, after, levels, 0) == Outcome(r);
          if r.Some? {
            ok := Eat(")");
            if !ok { r := None; }
          }
        } else if text == "[" {
          var items := ParseItems("]");
          assert Items(lexer.platform, after, levels, "]") == Outcome(items);
          r := if items.Some? then Some(ListOf(items.value)) else None;
        } else {
          return None;
        }
    }

    /** The `do ... while` of lists and calls. */
    method ParseItems(close: string) returns (r: Option<seq<Expr>>)
      requires Valid()
      modifies this, lexer`position
      ensures depth == old(depth)
      ensures r.Some? ==> Valid()
      ensures ItemsAre(lexer.platform, old(rest), MAX_NESTING - depth, close, Outcome(r))
      decreases |rest|, 4
    {
      var items: seq<Expr> := [];
      if token == Symbol(close) {
        var ok := Eat(close);
        return if ok then Some([]) else None;
      }
      ghost var start := rest;
      ghost var goal := MoreItems(lexer.platform, start, MAX_NESTING - depth, close);
      ItemsAfterNothing(goal);
      while true
        invariant Valid() && depth == old(depth) && |rest| <= |start|
        invariant ItemsAfter(items, MoreItems(lexer.platform, rest, MAX_NESTING - depth, close)) == goal
        decreases |rest|
      {
        ghost var here := rest;
        var item := ParseExpression(0);
        if item.None? { return None; }
        if token == Symbol(",") {
          var ok := Move();
          if !ok { return None; }
          ItemsAfterAppend(items, item.value, MoreItems(lexer.platform, rest, MAX_NESTING - depth, close));
          items := items + [item.value];
        } else {
          var ok := Eat(close);
          return if ok then Some(items + [item.value]) else None;
        }
      }
    }

    /** One round of the `while (true)` loop of `expression`. */
    method ParseSuffix(node: Expr, minimum: nat) returns (ok: bool, grown: Option<Expr>)
      requires Valid()
      modifies this, lexer`position
      ensures depth == old(depth)
      ensures match Suffix(lexer.platform, node, old(rest), MAX_NESTING - depth, minimum)
              case Thrown => !ok
              case Settled => ok && grown.None? && Valid() && rest == old(rest)
              case Grown(next, after) => ok && grown == Some(next) && Valid() && rest == after
      decreases |rest|, 0
    {
      grown := None;
      if token == Symbol(".") {
        ok := Move();
        if !ok || !token.Name? { return false, None; }
        var key := token.text;
        ok := Move();
        grown := Some(Member(node, Literal(Str(key)), false));
      } else if token == Symbol("[") {
        ok, grown := ParseIndex(node, minimum);
      } else if token == Symbol("(") {
        ok, grown := ParseArguments(node, minimum);
      } else {
        ok, grown := ParseInfix(node, minimum);
      }
    }

    method ParseIndex(node: Expr, minimum: nat) returns (ok: bool, grown: Option<Expr>)
      requires Valid() && token == Symbol("[")
      modifies this, lexer`position
      ensures depth == old(depth)
      ensures match Suffix(lexer.platform, node, old(rest), MAX_NESTING - depth, minimum)
              case Thrown => !ok
              case Settled => ok && grown.None? && Valid() && rest == old(rest)
              case Grown(next, after) => ok && grown == Some(next) && Valid() && rest == after
      decreases |rest|, 0, 0
    {
      grown := None;
      ghost var levels := MAX_NESTING - depth;
      ok := Move();
      if !ok { return; }
      ghost var after := rest;
      var key := ParseExpression(0);
      assert Expression(lexer.platform, after, levels, 0) == Outcome(key);
      if key.None? { return false, None; }
      ok := Eat("]");
      grown := Some(Member(node, key.value, true));
    }

    method ParseArguments(node: Expr, minimum: nat) returns (ok: bool, grown: Option<Expr>)
      requires Valid() && token == Symbol("(")
      modifies this, lexer`position
      ensures depth == old(depth)
      ensures match Suffix(lexer.platform, node, old(rest), MAX_NESTING - depth, minimum)
              case Thrown => !ok
              case Settled => ok && grown.None? && Valid() && rest == old(rest)
              case Grown(next, after) => ok && grown == Some(next) && Valid() && rest == after
      decreases |rest|, 0, 0
    {
      grown := None;
      ghost var levels := MAX_NESTING - depth;
      ok := Move();
      if !ok { return; }
      ghost var after := rest;
      var args := ParseItems(")");
      assert Items(lexer.platform, after, levels, ")") == Outcome(args);
      if args.None? { return false, None; }
      grown := Some(Call(node, args.value));
    }

    method ParseInfix(node: Expr, minimum: nat) returns (ok: bool, grown: Option<Expr>)
      requires Valid() && token !in [Symbol("."), Symbol("["), Symbol("(")]
      modifies this, lexer`position
      ensures depth == old(depth)
      ensures match Suffix(lexer.platform, node, old(rest), MAX_NESTING - depth, minimum)
              case Thrown => !ok
              case Settled => ok && grown.None? && Valid() && rest == old(rest)
              case Grown(next, after) => ok && grown == Some(next) && Valid() && rest == after
      decreases |rest|, 0, 0
    {
      ghost var levels := MAX_NESTING - depth;
      var strength := TokenStrength(token);
      if strength < minimum { return true, None; }
      var operator := token.text;
      ok := Move();
      if !ok { return false, None; }
      ghost var after := rest;
      var right := ParseExpression(strength + 1);
      assert Expression(lexer.platform, after, levels, strength + 1) == Outcome(right);
      if right.None? { return false, None; }
      grown := Some(Binary(operator, node, right.value));
    }

    method ParseSuffixes(first: Expr, minimum: nat) returns (r: Option<Expr>)
      requires Valid()
      modifies this, lexer`position
      ensures depth == old(depth)
      ensures r.Some? ==> Valid()
      ensures SuffixesAre(lexer.platform, first, old(rest), MAX_NESTING - depth, minimum, Outcome(r))
      decreases |rest|, 1
    {
      var node := first;
      ghost var start := rest;
      while true
        invariant Valid() && depth == old(depth) && |rest| <= |start|
        invariant Suffixes(lexer.platform, node, rest, MAX_NESTING - depth, minimum)
               == Suffixes(lexer.platform, first, start, MAX_NESTING - depth, minimum)
        decreases |rest|
      {
        var ok, grown := ParseSuffix(node, minimum);
        if !ok { return None; }
        if grown.None? { return Some(node); }
        node := grown.value;
      }
    }
  }

  /** The lexer stands where the tokens after the current one begin. */
  ghost predicate Linked(lexer: Lexer, rest: seq<Token>)
    reads lexer
    requires rest != [] && lexer.position <= |lexer.source|
  {
    forall s {:trigger Tokens(lexer.platform, s)} :: s == lexer.source[lexer.position..] && !rest[0].End? && !rest[0].Stray? ==>
      rest[1..] == Tokens(lexer.platform, s)
  }

  function ItemsAfter(items: seq<Expr>, goal: Parsed<seq<Expr>>): Parsed<seq<Expr>> {
    match goal
    case Failed => Failed
    case Parsed(more, rest) => Parsed(items + more, rest)
  }

  lemma {:induction false} ItemsAfterNothing(goal: Parsed<seq<Expr>>)
    ensures ItemsAfter([], goal) == goal
  {
    if goal.Parsed? { assert [] + goal.value == goal.value; }
  }

  lemma {:induction false} ItemsAfterAppend(items: seq<Expr>, item: Expr, goal: Parsed<seq<Expr>>)
    ensures ItemsAfter(items + [item], goal) == ItemsAfter(items, ItemsAfter([item], goal))
  {
    if goal.Parsed? { assert items + [item] + goal.value == items + ([item] + goal.value); }
  }

  lemma {:induction false} TokensLinked(lexer: Lexer, token: Token, ts: seq<Token>)
    requires lexer.position <= |lexer.source| && ts != [] && ts[0] == token && !token.Stray? && !token.End? && Linked(lexer, ts)
    ensures ts == [token] + Tokens(lexer.platform, lexer.source[lexer.position..])
  {
    assert ts == [ts[0]] + ts[1..];
  }

  /** `parseBaseExpression`. */
  method ParseSource(platform: Platform, source: string) returns (r: Option<Expr>)
    ensures r == ParseText(platform, source)
  {
    var lexer := new Lexer(platform, source);
    assert source[lexer.position..] == source;
    var token := lexer.NextToken();
    ghost var ts := Tokens(platform, source);
    assert ts[0] == token;
    if token.Stray? { return None; }
    if token.End? { return Some(Literal(Null)); }
    assert ts == [token] + Tokens(platform, source[lexer.position..]);
    r := ParseTokens(lexer, token, ts);
  }

  method ParseTokens(lexer: Lexer, token: Token, ghost ts: seq<Token>) returns (r: Option<Expr>)
    requires lexer.position <= |lexer.source| && !token.Stray? && !token.End?
    requires ts != [] && ts[0] == token && Linked(lexer, ts)
    modifies lexer
    ensures exists goal :: ExpressionIs(lexer.platform, ts, MAX_NESTING, 0, goal) && r == Whole(goal)
  {
    var parser := new Parser(lexer, token);
    TokensLinked(lexer, token, ts);
    r := parser.ParseExpression(0);
    ghost var goal := parser.Outcome(r);
    if r.Some? && !parser.token.End? { r := None; }
    assert ExpressionIs(lexer.platform, ts, MAX_NESTING, 0, goal) && r == Whole(goal);
  }
}
