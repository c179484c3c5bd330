/** The parser as inference rules: what each construct reads, one rule each.

    The four judgements restate the parser's functions in a form that is
    unfolded only where a rule is proved. */
module ParseRules {
  import opened Platforms
  import opened Syntax
  import opened Lexing
  import opened Parsing

  ghost predicate ExpressionIs(p: Platform, ts: seq<Token>, levels: nat, minimum: nat, r: Parsed<Expr>) {
    forall x {:trigger Expression(p, x, levels, minimum)} :: x == ts ==> Expression(p, x, levels, minimum) == r
  }

  ghost predicate PrimaryIs(p: Platform, ts: seq<Token>, levels: nat, r: Parsed<Expr>) {
    forall x {:trigger Primary(p, x, levels)} :: x == ts ==> Primary(p, x, levels) == r
  }

  ghost predicate SuffixesAre(p: Platform, node: Expr, ts: seq<Token>, levels: nat, minimum: nat, r: Parsed<Expr>) {
    forall x {:trigger Suffixes(p, node, x, levels, minimum)} :: x == ts ==> Suffixes(p, node, x, levels, minimum) == r
  }

  ghost predicate ItemsAre(p: Platform, ts: seq<Token>, levels: nat, close: string, r: Parsed<seq<Expr>>) {
    forall x {:trigger Items(p, x, levels, close)} :: x == ts ==> Items(p, x, levels, close) == r
  }

  ghost predicate MoreItemsAre(p: Platform, ts: seq<Token>, levels: nat, close: string, r: Parsed<seq<Expr>>) {
    forall x {:trigger MoreItems(p, x, levels, close)} :: x == ts ==> MoreItems(p, x, levels, close) == r
  }

  /** Tokens that end an operand. */
  predicate Closes(ts: seq<Token>) {
    ts != [] && (ts[0].End? || ts[0] in [Symbol(")"), Symbol("]"), Symbol(",")])
  }

  predicate Sound(ts: seq<Token>) { ts != [] && !ts[0].Stray? }

  /** The result of reading `value` up to `rest`, if it fits the nesting limit. */
  function Read<T>(value: T, rest: seq<Token>, fits: bool): Parsed<T> {
    if fits then Parsed(value, rest) else Failed
  }

  lemma {:induction false} Ahead(t: Token, ts: seq<Token>)
    requires Sound(ts)
    ensures Advance([t] + ts) == Some(ts) && ([t] + ts)[0] == t
  {
  }

  lemma {:induction false} TooDeep(p: Platform, ts: seq<Token>, minimum: nat)
    ensures ExpressionIs(p, ts, 0, minimum, Failed)
  {
  }

  lemma {:induction false} PrimaryFirst(p: Platform, ts: seq<Token>, levels: nat, minimum: nat, node: Expr, rest: seq<Token>, fits: bool, r: Parsed<Expr>)
    requires PrimaryIs(p, ts, levels, Read(node, rest, fits))
    requires if fits then SuffixesAre(p, node, rest, levels, minimum, r) else r.Failed?
    ensures ExpressionIs(p, ts, levels + 1, minimum, r)
  {
    assert Primary(p, ts, levels) == Read(node, rest, fits);
    assert fits ==> Suffixes(p, node, rest, levels, minimum) == r;
  }

  lemma {:induction false} Settles(p: Platform, node: Expr, ts: seq<Token>, levels: nat, minimum: nat)
    requires Closes(ts)
    ensures SuffixesAre(p, node, ts, levels, minimum, Parsed(node, ts))
  {
  }

  lemma {:induction false} DotSuffix(p: Platform, node: Expr, name: string, ts: seq<Token>, levels: nat, minimum: nat, r: Parsed<Expr>)
    requires Sound(ts) && SuffixesAre(p, Member(node, Literal(Str(name)), false), ts, levels, minimum, r)
    ensures SuffixesAre(p, node, [Symbol(".")] + ([Name(name)] + ts), levels, minimum, r)
  {
    Ahead(Name(name), ts);
    Ahead(Symbol("."), [Name(name)] + ts);
    assert Suffixes(p, Member(node, Literal(Str(name)), false), ts, levels, minimum) == r;
  }

  lemma {:induction false} IndexSuffix(p: Platform, node: Expr, key: Expr, ts: seq<Token>, rest: seq<Token>, levels: nat, minimum: nat, fits: bool, r: Parsed<Expr>)
    requires Sound(ts) && Sound(rest)
    requires ExpressionIs(p, ts, levels, 0, Read(key, [Symbol("]")] + rest, fits))
    requires if fits then SuffixesAre(p, Member(node, key, true), rest, levels, minimum, r) else r.Failed?
    ensures SuffixesAre(p, node, [Symbol("[")] + ts, levels, minimum, r)
  {
    Ahead(Symbol("["), ts);
    Ahead(Symbol("]"), rest);
    assert Expression(p, ts, levels, 0) == Read(key, [Symbol("]")] + rest, fits);
    assert fits ==> Suffixes(p, Member(node, key, true), rest, levels, minimum) == r;
  }

  lemma {:induction false} CallSuffix(p: Platform, node: Expr, args: seq<Expr>, ts: seq<Token>, rest: seq<Token>, levels: nat, minimum: nat, fits: bool, r: Parsed<Expr>)
    requires Sound(ts) && ItemsAre(p, ts, levels, ")", Read(args, rest, fits))
    requires if fits then SuffixesAre(p, Call(node, args), rest, levels, minimum, r) else r.Failed?
    ensures SuffixesAre(p, node, [Symbol("(")] + ts, levels, minimum, r)
  {
    Ahead(Symbol("("), ts);
    assert Items(p, ts, levels, ")") == Read(args, rest, fits);
    assert fits ==> Suffixes(p, Call(node, args), rest, levels, minimum) == r;
  }

  lemma {:induction false} InfixSuffix(p: Platform, node: Expr, operator: string, right: Expr, ts: seq<Token>, rest: seq<Token>, levels: nat, minimum: nat, fits: bool, r: Parsed<Expr>)
    requires Strength(operator) >= minimum && Sound(ts) && operator !in [".", "[", "("]
    requires ExpressionIs(p, ts, levels, Strength(operator) + 1, Read(right, rest, fits))
    requires if fits then SuffixesAre(p, Binary(operator, node, right), rest, levels, minimum, r) else r.Failed?
    ensures SuffixesAre(p, node, [Symbol(operator)] + ts, levels, minimum, r)
  {
    Ahead(Symbol(operator), ts);
    assert Expression(p, ts, levels, Strength(operator) + 1) == Read(right, rest, fits);
    assert fits ==> Suffixes(p, Binary(operator, node, right), rest, levels, minimum) == r;
  }

  lemma {:induction false} PrefixPrimary(p: Platform, operator: string, operand: Expr, ts: seq<Token>, rest: seq<Token>, levels: nat, fits: bool)
    requires operator in ["-", "!"] && Sound(ts)
    requires ExpressionIs(p, ts, levels, 7, Read(operand, rest, fits))
    ensures PrimaryIs(p, [Symbol(operator)] + ts, levels, Read(Unary(operator, operand), rest, fits))
  {
    Ahead(Symbol(operator), ts);
    assert Expression(p, ts, levels, 7) == Read(operand, rest, fits);
  }

  lemma {:induction false} ParenthesisedPrimary(p: Platform, node: Expr, ts: seq<Token>, rest: seq<Token>, levels: nat, fits: bool)
    requires Sound(ts) && Sound(rest)
    requires ExpressionIs(p, ts, levels, 0, Read(node, [Symbol(")")] + rest, fits))
    ensures PrimaryIs(p, [Symbol("(")] + ts, levels, Read(node, rest, fits))
  {
    Ahead(Symbol("("), ts);
    Ahead(Symbol(")"), rest);
    assert Expression(p, ts, levels, 0) == Read(node, [Symbol(")")] + rest, fits);
  }

  lemma {:induction false} ListPrimary(p: Platform, items: seq<Expr>, ts: seq<Token>, rest: seq<Token>, levels: nat, fits: bool)
    requires Sound(ts) && ItemsAre(p, ts, levels, "]", Read(items, rest, fits))
    ensures PrimaryIs(p, [Symbol("[")] + ts, levels, Read(ListOf(items), rest, fits))
  {
    Ahead(Symbol("["), ts);
    assert Items(p, ts, levels, "]") == Read(items, rest, fits);
  }

  /** A name, numeral or string is a whole primary. */
  function AtomNode(p: Platform, t: Token): Expr
    requires t.Name? || t.Numeral? || t.Text?
  {
    match t
    case Name(text) => NameNode(text)
    case Numeral(text) => Literal(Num(p.toNumber(text)))
    case Text(value) => Literal(Str(value))
  }

  lemma {:induction false} AtomPrimary(p: Platform, t: Token, ts: seq<Token>, levels: nat)
    requires (t.Name? || t.Numeral? || t.Text?) && Sound(ts)
    ensures PrimaryIs(p, [t] + ts, levels, Parsed(AtomNode(p, t), ts))
  {
    Ahead(t, ts);
  }

  lemma {:induction false} NoItems(p: Platform, close: string, ts: seq<Token>, levels: nat)
    requires Sound(ts)
    ensures ItemsAre(p, [Symbol(close)] + ts, levels, close, Parsed([], ts))
  {
    Ahead(Symbol(close), ts);
  }

  lemma {:induction false} SomeItems(p: Platform, ts: seq<Token>, close: string, levels: nat, r: Parsed<seq<Expr>>)
    requires ts != [] && ts[0] != Symbol(close) && MoreItemsAre(p, ts, levels, close, r)
    ensures ItemsAre(p, ts, levels, close, r)
  {
    assert MoreItems(p, ts, levels, close) == r;
  }

  lemma {:induction false} LastItem(p: Platform, item: Expr, ts: seq<Token>, close: string, rest: seq<Token>, levels: nat, fits: bool)
    requires Sound(rest) && close != ","
    requires ExpressionIs(p, ts, levels, 0, Read(item, [Symbol(close)] + rest, fits))
    ensures MoreItemsAre(p, ts, levels, close, Read([item], rest, fits))
  {
    Ahead(Symbol(close), rest);
    assert Expression(p, ts, levels, 0) == Read(item, [Symbol(close)] + rest, fits);
  }

  lemma {:induction false} NextItem(p: Platform, item: Expr, items: seq<Expr>, ts: seq<Token>, more: seq<Token>, close: string, rest: seq<Token>, levels: nat, fits: bool, fitMore: bool)
    requires Sound(more)
    requires ExpressionIs(p, ts, levels, 0, Read(item, [Symbol(",")] + more, fits))
    requires MoreItemsAre(p, more, levels, close, Read(items, rest, fitMore))
    ensures MoreItemsAre(p, ts, levels, close, Read([item] + items, rest, fits && fitMore))
  {
    Ahead(Symbol(","), more);
    assert Expression(p, ts, levels, 0) == Read(item, [Symbol(",")] + more, fits);
    assert MoreItems(p, more, levels, close) == Read(items, rest, fitMore);
  }
}
