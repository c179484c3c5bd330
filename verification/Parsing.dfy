/** The Pratt parser, as functions on the tokens that are left. */
module Parsing {
  import opened Platforms
  import opened Syntax
  import opened Lexing
  import Formulas

  datatype Parsed<T> = Parsed(value: T, rest: seq<Token>) | Failed

  /** The nesting limit of `parseBaseExpression`. */
  const MAX_NESTING: nat := 256

  function Strength(operator: string): int {
    if operator == "||" then 1
    else if operator == "&&" then 2
    else if operator in ["==", "!="] then 3
    else if operator in ["<", ">", "<=", ">="] then 4
    else if operator in ["+", "-"] then 5
    else if operator in ["*", "/", "%"] then 6
    else -1
  }

  /** The strength of the current token as a binary operator. */
  function TokenStrength(t: Token): int {
    if t.Symbol? then Strength(t.text) else -1
  }

  /** Move to the next token; a lexical error is thrown as soon as it is reached. */
  function Advance(ts: seq<Token>): (r: Option<seq<Token>>)
    ensures r.Some? ==> 0 < |r.value| < |ts| && r.value == ts[1..]
  {
    if |ts| > 1 && !ts[1].Stray? then Some(ts[1..]) else None
  }

  function Expect(ts: seq<Token>, text: string): (r: Option<seq<Token>>)
    ensures r.Some? ==> 0 < |r.value| < |ts| && r.value == ts[1..]
  {
    if ts != [] && ts[0] == Symbol(text) then Advance(ts) else None
  }

  /** `expression(minimum)`, with `levels` of nesting still allowed. */
  function Expression(p: Platform, ts: seq<Token>, levels: nat, minimum: nat): (r: Parsed<Expr>)
    ensures r.Parsed? ==> 0 < |r.rest| < |ts|
    decreases |ts|, 3
  {
    if levels == 0 then Failed
    else
      match Primary(p, ts, levels - 1)
      case Failed => Failed
      case Parsed(node, rest) => Suffixes(p, node, rest, levels - 1, minimum)
  }

  function Primary(p: Platform, ts: seq<Token>, levels: nat): (r: Parsed<Expr>)
    ensures r.Parsed? ==> 0 < |r.rest| < |ts|
    decreases |ts|, 2
  {
    if ts == [] then Failed
    else
      match Advance(ts)
      case None => Failed
      case Some(after) =>
        match ts[0]
        case Text(value) => Parsed(Literal(Str(value)), after)
        case Numeral(text) => Parsed(Literal(Num(p.toNumber(text))), after)
        case Name(text) => Parsed(NameNode(text), after)
        case Symbol(text) =>
          if text == "-" || text == "!" then
            match Expression(p, after, levels, 7)
            case Failed => Failed
            case Parsed(operand, rest) => Parsed(Unary(text, operand), rest)
          else if text == "(" then
            match Expression(p, after, levels, 0)
            case Failed => Failed
            case Parsed(node, rest) =>
              match Expect(rest, ")")
              case None => Failed
              case Some(closed) => Parsed(node, closed)
          else if text == "[" then
            match Items(p, after, levels, "]")
            case Failed => Failed
            case Parsed(items, rest) => Parsed(ListOf(items), rest)
          else Failed // including "/", where the source reads a regular expression
        case _ => Failed
  }

  function NameNode(text: string): Expr {
    if text == "null" then Literal(Null)
    else if text == "true" || text == "false" then Literal(Bool(text == "true"))
    else Identifier(text)
  }

  /** The comma-separated expressions up to `close`, after the opening bracket. */
  function Items(p: Platform, ts: seq<Token>, levels: nat, close: string): (r: Parsed<seq<Expr>>)
    ensures r.Parsed? ==> 0 < |r.rest| < |ts|
    decreases |ts|, 5
  {
    if ts != [] && ts[0] == Symbol(close) then
      match Advance(ts)
      case None => Failed
      case Some(after) => Parsed([], after)
    else MoreItems(p, ts, levels, close)
  }

  function MoreItems(p: Platform, ts: seq<Token>, levels: nat, close: string): (r: Parsed<seq<Expr>>)
    ensures r.Parsed? ==> 0 < |r.rest| < |ts|
    decreases |ts|, 4
  {
    match Expression(p, ts, levels, 0)
    case Failed => Failed
    case Parsed(item, rest) =>
      if rest[0] == Symbol(",") then
        match Advance(rest)
        case None => Failed
        case Some(after) =>
          match MoreItems(p, after, levels, close)
          case Failed => Failed
          case Parsed(items, end) => Parsed([item] + items, end)
      else
        match Expect(rest, close)
        case None => Failed
        case Some(after) => Parsed([item], after)
  }

  /** One round of the postfix and binary loop. */
  datatype Round = Grown(node: Expr, rest: seq<Token>) | Settled | Thrown

  function Suffix(p: Platform, node: Expr, ts: seq<Token>, levels: nat, minimum: nat): (r: Round)
    ensures r.Grown? ==> 0 < |r.rest| < |ts|
    decreases |ts|, 0
  {
    if ts == [] then Settled
    else if ts[0] == Symbol(".") then
      match Advance(ts)
      case None => Thrown
      case Some(after) =>
        if !after[0].Name? then Thrown
        else
          match Advance(after)
          case None => Thrown
          case Some(rest) => Grown(Member(node, Literal(Str(after[0].text)), false), rest)
    else if ts[0] == Symbol("[") then
      match Advance(ts)
      case None => Thrown
      case Some(after) =>
        match Expression(p, after, levels, 0)
        case Failed => Thrown
        case Parsed(key, rest) =>
          match Expect(rest, "]")
          case None => Thrown
          case Some(closed) => Grown(Member(node, key, true), closed)
    else if ts[0] == Symbol("(") then
      match Advance(ts)
      case None => Thrown
      case Some(after) =>
        match Items(p, after, levels, ")")
        case Failed => Thrown
        case Parsed(args, rest) => Grown(Call(node, args), rest)
    else if TokenStrength(ts[0]) < minimum then Settled
    else
      match Advance(ts)
      case None => Thrown
      case Some(after) =>
        match Expression(p, after, levels, TokenStrength(ts[0]) + 1)
        case Failed => Thrown
        case Parsed(right, rest) => Grown(Binary(ts[0].text, node, right), rest)
  }

  /** The loop itself: `node` has been read and `ts` is next. */
  function Suffixes(p: Platform, node: Expr, ts: seq<Token>, levels: nat, minimum: nat): (r: Parsed<Expr>)
    ensures r.Parsed? ==> |r.rest| <= |ts| && (|ts| > 0 ==> |r.rest| > 0)
    decreases |ts|, 1
  {
    match Suffix(p, node, ts, levels, minimum)
    case Thrown => Failed
    case Settled => Parsed(node, ts)
    case Grown(grown, rest) => Suffixes(p, grown, rest, levels, minimum)
  }

  /** `parseBaseExpression`: blank source is `null`, and nothing may follow. */
  function ParseText(p: Platform, source: string): Option<Expr> {
    var ts := Tokens(p, source);
    if ts[0].Stray? then None
    else if ts[0].End? then Some(Literal(Null))
    else Whole(Expression(p, ts, MAX_NESTING, 0))
  }

  function Whole(r: Parsed<Expr>): Option<Expr> {
    if r.Parsed? && r.rest != [] && r.rest[0].End? then Some(r.value) else None
  }

  /** A stored expression, or the failure that using it throws. */
  function CompileBody(p: Platform, source: string): Formulas.Body {
    match ParseText(p, source)
    case None => Formulas.Broken
    case Some(e) => Formulas.Compiled(e)
  }
}
