/** The printer of `renameFormulaExpression`, and the parser as its inverse. */
module Printing {
  import opened Platforms
  import opened Syntax
  import opened Lexing
  import opened Parsing

  // ----- JSON.stringify on a string

  function HexDigit(n: nat): char
    requires n < 16
  {
    if n < 10 then ('0' as int + n) as char else ('a' as int + n - 10) as char
  }

  function EscapeChar(c: char): string {
    match c
    case '"' => "\\\""
    case '\\' => "\\\\"
    case '\U{0008}' => "\\b"
    case '\U{000C}' => "\\f"
    case '\n' => "\\n"
    case '\r' => "\\r"
    case '\t' => "\\t"
    case _ => if c < ' ' then "\\u00" + [HexDigit(c as int / 16), HexDigit(c as int % 16)] else [c]
  }

  function Escape(s: string): string {
    if s == "" then "" else EscapeChar(s[0]) + Escape(s[1..])
  }

  function Quote(s: string): string { "\"" + Escape(s) + "\"" }

  // ----- the printer

  function Render(p: Platform, e: Expr): string {
    match e
    case Literal(value) => RenderLiteral(p, value)
    case Identifier(name) => name
    case ListOf(items) => "[" + RenderAll(p, items) + "]"
    case Unary(operator, operand) => "(" + operator + Render(p, operand) + ")"
    case Binary(operator, left, right) => "(" + Render(p, left) + " " + operator + " " + Render(p, right) + ")"
    case Call(callee, args) => Render(p, callee) + "(" + RenderAll(p, args) + ")"
    case Member(owner, key, computed) =>
      if !computed && key.Literal? && key.value.Str? && IsName(p, key.value.text) then
        Render(p, owner) + "." + key.value.text
      else Render(p, owner) + "[" + Render(p, key) + "]"
  }

  function RenderLiteral(p: Platform, value: Value): string {
    match value
    case Bool(b) => if b then "true" else "false"
    case Str(s) => Quote(s)
    case Num(n) => p.showNumber(n)
    case _ => "null"
  }

  function RenderAll(p: Platform, items: seq<Expr>): string {
    if items == [] then ""
    else if |items| == 1 then Render(p, items[0])
    else Render(p, items[0]) + ", " + RenderAll(p, items[1..])
  }

  // ----- what the parser can produce

  const UNARY := ["-", "!"]
  const BINARY := ["||", "&&", "==", "!=", "<", ">", "<=", ">=", "+", "-", "*", "/", "%"]
  const KEYWORDS := ["null", "true", "false"]

  ghost predicate IsLexedNumber(p: Platform, n: Number) {
    exists text :: IsNumeral(text) && n == p.toNumber(text)
  }

  ghost predicate WellFormed(p: Platform, e: Expr) {
    match e
    case Literal(value) => value.Null? || value.Bool? || value.Str? || (value.Num? && IsLexedNumber(p, value.number))
    case Identifier(name) => IsName(p, name) && name !in KEYWORDS
    case ListOf(items) => forall i :: 0 <= i < |items| ==> WellFormed(p, items[i])
    case Unary(operator, operand) => operator in UNARY && WellFormed(p, operand)
    case Binary(operator, left, right) => operator in BINARY && WellFormed(p, left) && WellFormed(p, right)
    case Member(owner, key, computed) =>
      && WellFormed(p, owner) && WellFormed(p, key)
      && (!computed ==> key.Literal? && key.value.Str? && IsName(p, key.value.text))
    case Call(callee, args) => WellFormed(p, callee) && forall i :: 0 <= i < |args| ==> WellFormed(p, args[i])
  }

  /** The printer throws on an infinite number. */
  predicate AllFinite(p: Platform, e: Expr) {
    match e
    case Literal(value) => value.Num? ==> p.finite(value.number)
    case Identifier(_) => true
    case ListOf(items) => forall i :: 0 <= i < |items| ==> AllFinite(p, items[i])
    case Unary(_, operand) => AllFinite(p, operand)
    case Binary(_, left, right) => AllFinite(p, left) && AllFinite(p, right)
    case Call(callee, args) => AllFinite(p, callee) && forall i :: 0 <= i < |args| ==> AllFinite(p, args[i])
    case Member(owner, key, _) => AllFinite(p, owner) && AllFinite(p, key)
  }

  /** Printed with digits alone, so a following dot would join it. */
  predicate PrintsAsDigits(p: Platform, e: Expr) {
    e.Literal? && e.value.Num? && Digits(p.showNumber(e.value.number)) == |p.showNumber(e.value.number)|
  }

  /** Every number is finite, and no `.name` follows a number printed as digits. */
  predicate Printable(p: Platform, e: Expr) {
    match e
    case Literal(value) => value.Num? ==> p.finite(value.number)
    case Identifier(_) => true
    case ListOf(items) => forall i :: 0 <= i < |items| ==> Printable(p, items[i])
    case Unary(_, operand) => Printable(p, operand)
    case Binary(_, left, right) => Printable(p, left) && Printable(p, right)
    case Member(owner, key, computed) => Printable(p, owner) && Printable(p, key) && (computed || !PrintsAsDigits(p, owner))
    case Call(callee, args) => Printable(p, callee) && forall i :: 0 <= i < |args| ==> Printable(p, args[i])
  }

  lemma {:induction false} PrintableFinite(p: Platform, e: Expr)
    requires Printable(p, e)
    ensures AllFinite(p, e)
  {
    match e
    case Literal(_) =>
    case Identifier(_) =>
    case ListOf(items) => forall i | 0 <= i < |items| { PrintableFinite(p, items[i]); }
    case Unary(_, operand) => PrintableFinite(p, operand);
    case Binary(_, left, right) =>
      PrintableFinite(p, left);
      PrintableFinite(p, right);
    case Call(callee, args) =>
      PrintableFinite(p, callee);
      forall i | 0 <= i < |args| { PrintableFinite(p, args[i]); }
    case Member(owner, key, _) =>
      PrintableFinite(p, owner);
      PrintableFinite(p, key);
  }

  /** Levels of nesting that parsing the printed text takes. */
  function Nesting(e: Expr): (n: nat)
    ensures n > 0
  {
    match e
    case Literal(_) => 1
    case Identifier(_) => 1
    case ListOf(items) => 1 + NestingAll(items)
    case Unary(_, operand) => 2 + Nesting(operand)
    case Binary(_, left, right) => Max(1 + Nesting(left), 2 + Nesting(right))
    case Member(owner, key, computed) => if computed then Max(Nesting(owner), 1 + Nesting(key)) else Nesting(owner)
    case Call(callee, args) => Max(Nesting(callee), 1 + NestingAll(args))
  }

  function NestingAll(items: seq<Expr>): nat {
    if items == [] then 0 else Max(Nesting(items[0]), NestingAll(items[1..]))
  }

  // ----- the laws of the platform that printing relies on

  const PUNCTUATION := "\"'+-*/%!<>=&|().,[]"

  /** ASCII is classified as in Unicode. */
  ghost predicate ClassifiesAscii(p: Platform) {
    && p.space(' ') && !p.letter(' ') && !p.mark(' ')
    && !p.space('$') && !p.space('_')
    && (forall c :: c in PUNCTUATION ==> !p.space(c) && !p.letter(c) && !p.mark(c))
    && (forall c :: IsDigit(c) ==> !p.space(c) && !p.letter(c))
    && (forall c :: p.letter(c) || p.mark(c) ==> !p.space(c))
    && (forall c :: 'a' <= c <= 'z' ==> p.letter(c))
  }

  /** A finite nonnegative number's text is a numeral that reads back as the number. */
  ghost predicate ShowsNumbers(p: Platform) {
    forall text :: IsNumeral(text) && p.finite(p.toNumber(text)) ==>
      IsNumeral(p.showNumber(p.toNumber(text))) && p.toNumber(p.showNumber(p.toNumber(text))) == p.toNumber(text)
  }

  ghost predicate IsLawful(p: Platform) { ClassifiesAscii(p) && ShowsNumbers(p) }

  /** A small platform that keeps the laws: ASCII text and the numbers 0 to 9. */
  function Digit(text: string): Number {
    if |text| == 1 && IsDigit(text[0]) then Number(text[0] as int - '0' as int) else Number(-1)
  }

  const ASCII: Platform := Platform(
    letter := c => 'a' <= c <= 'z' || 'A' <= c <= 'Z',
    mark := IsDigit,
    space := c => c == ' ' || c == '\t' || c == '\r' || c == '\n',
    lower := s => s,
    toNumber := Digit,
    showNumber := (n: Number) => if 0 <= n.code <= 9 then [('0' as int + n.code) as char] else "NaN",
    finite := (n: Number) => 0 <= n.code <= 9,
    negate := (n: Number) => Number(-1),
    ofNat := (n: nat) => Number(n),
    numberTruthy := (n: Number) => n.code != 0,
    foreignTruthy := _ => true,
    listIndex := (n: Number, length: nat) => None,
    charAt := (s, n) => "",
    foreignMember := (v, name) => Good(Null),
    arithmetic := (op, a, b) => Good(Null),
    comparison := (op, a, b) => Good(Null),
    find := (name, subject) => None)

  lemma {:induction false} PunctuationCode(c: char)
    requires c in PUNCTUATION
    ensures !ASCII.letter(c) && !ASCII.mark(c) && !ASCII.space(c)
  {
    assert !('a' <= c <= 'z') && !('A' <= c <= 'Z') && !('0' <= c <= '9');
  }

  lemma {:induction false} AsciiClassifies()
    ensures ClassifiesAscii(ASCII)
  {
    forall c | c in PUNCTUATION
      ensures !ASCII.space(c) && !ASCII.letter(c) && !ASCII.mark(c)
    {
      PunctuationCode(c);
    }
  }

  lemma {:induction false} DigitShows(text: string)
    requires 0 <= Digit(text).code <= 9
    ensures ASCII.showNumber(Digit(text)) == text
  {
  }

  lemma {:induction false} AsciiShowsNumbers()
    ensures ShowsNumbers(ASCII)
  {
    forall text | IsNumeral(text) && ASCII.finite(ASCII.toNumber(text))
      ensures ASCII.showNumber(ASCII.toNumber(text)) == text
    {
      assert ASCII.toNumber(text) == Digit(text);
      DigitShows(text);
    }
  }

  lemma {:induction false} AsciiIsLawful()
    ensures IsLawful(ASCII)
  {
    AsciiClassifies();
    AsciiShowsNumbers();
  }

  /** Platforms whose printed numbers read back. */
  type NumberedPlatform = p: Platform | ShowsNumbers(p) ghost witness (AsciiIsLawful(); ASCII)

  /** Platforms on which the lexer reads printed text as it should. */
  type LawfulPlatform = p: Platform | IsLawful(p) ghost witness (AsciiIsLawful(); ASCII)

  // ----- the tokens of the printed text

  function Toks(p: Platform, e: Expr): (ts: seq<Token>)
    ensures |ts| > 0
  {
    match e
    case Literal(value) =>
      (match value
       case Bool(b) => [Name(if b then "true" else "false")]
       case Str(s) => [Text(s)]
       case Num(n) => [Numeral(p.showNumber(n))]
       case _ => [Name("null")])
    case Identifier(name) => [Name(name)]
    case ListOf(items) => [Symbol("[")] + ToksAll(p, items) + [Symbol("]")]
    case Unary(operator, operand) => [Symbol("("), Symbol(operator)] + Toks(p, operand) + [Symbol(")")]
    case Binary(operator, left, right) =>
      [Symbol("(")] + Toks(p, left) + [Symbol(operator)] + Toks(p, right) + [Symbol(")")]
    case Call(callee, args) => Toks(p, callee) + [Symbol("(")] + ToksAll(p, args) + [Symbol(")")]
    case Member(owner, key, computed) =>
      if !computed && key.Literal? && key.value.Str? && IsName(p, key.value.text) then
        Toks(p, owner) + [Symbol("."), Name(key.value.text)]
      else Toks(p, owner) + [Symbol("[")] + Toks(p, key) + [Symbol("]")]
  }

  function ToksAll(p: Platform, items: seq<Expr>): (ts: seq<Token>) {
    if items == [] then []
    else if |items| == 1 then Toks(p, items[0])
    else Toks(p, items[0]) + [Symbol(",")] + ToksAll(p, items[1..])
  }
}
