/** The literals of visual filters: their text, and reading it back. */
module FilterLiterals {
  import opened Platforms
  import opened Syntax
  import opened Lexing
  import opened Parsing
  import opened ParseRules
  import opened Printing
  import opened LexPrinted

  datatype Lit = NullLit | TextLit(text: string) | FlagLit(truth: bool) | NumberLit(number: Number) | ListLit(items: seq<Lit>)

  const MAX_DEPTH: nat := 64
  const MAX_NODES: nat := 10000

  // ----- numbers with a sign

  /** `Object.is(item, -0) ? '-0' : String(item)`. */
  function SpellNumber(p: Platform, n: Number): string {
    if n == p.negate(p.toNumber("0")) then "-0" else p.showNumber(n)
  }

  predicate Positive(p: Platform, s: string, n: Number) { IsNumeral(s) && p.toNumber(s) == n }

  predicate Negative(p: Platform, s: string, n: Number) {
    && s != "" && s[0] == '-' && IsNumeral(s[1..]) && p.finite(p.toNumber(s[1..]))
    && p.negate(p.toNumber(s[1..])) == n
  }

  /** The text of a finite number is a numeral, or one after a minus sign, and
      `Number` reads it back either way. */
  ghost predicate SpellsNumbers(p: Platform) {
    forall n {:trigger SpellNumber(p, n)} :: p.finite(n) ==>
      var s := SpellNumber(p, n);
      (Positive(p, s, n) || Negative(p, s, n)) && p.toNumber(s) == n
  }

  ghost predicate CapitalsAreLetters(p: Platform) { forall c :: 'A' <= c <= 'Z' ==> p.letter(c) }

  lemma {:induction false} DigitSpelled(n: Number)
    requires 0 <= n.code <= 9
    ensures SpellNumber(ASCII, n) == [('0' as int + n.code) as char] && Positive(ASCII, SpellNumber(ASCII, n), n)
  {
    var s := [('0' as int + n.code) as char];
    assert ASCII.negate(ASCII.toNumber("0")) == Number(-1);
    assert s[1..] == "" && Digits(s) == 1 && MantissaLength(s) == 1;
    assert s[MantissaLength(s)..] == "";
    assert NumeralLength(s) == 1;
    assert ASCII.toNumber(s) == Digit(s) == n;
  }

  lemma {:induction false} AsciiSpells()
    ensures SpellsNumbers(ASCII) && CapitalsAreLetters(ASCII)
  {
    forall n {:trigger SpellNumber(ASCII, n)} | ASCII.finite(n)
      ensures Positive(ASCII, SpellNumber(ASCII, n), n)
    {
      DigitSpelled(n);
    }
  }

  /** Platforms on which filter text reads back. */
  type FilterPlatform = p: Platform | IsLawful(p) && SpellsNumbers(p) && CapitalsAreLetters(p)
    ghost witness (AsciiIsLawful(); AsciiSpells(); ASCII)

  // ----- writing

  function Spell(p: Platform, v: Lit): string {
    match v
    case NullLit => "null"
    case TextLit(s) => Quote(s)
    case FlagLit(b) => if b then "true" else "false"
    case NumberLit(n) => SpellNumber(p, n)
    case ListLit(items) => ['['] + (SpellAll(p, items) + [']'])
  }

  function SpellAll(p: Platform, items: seq<Lit>): string {
    if items == [] then ""
    else if |items| == 1 then Spell(p, items[0])
    else Spell(p, items[0]) + ([','] + (" " + SpellAll(p, items[1..])))
  }

  predicate Finite(p: Platform, v: Lit) {
    match v
    case NumberLit(n) => p.finite(n)
    case ListLit(items) => forall i :: 0 <= i < |items| ==> Finite(p, items[i])
    case _ => true
  }

  /** Every number is spelled as a numeral, with a sign or without. */
  predicate Spelled(p: Platform, v: Lit) {
    match v
    case NumberLit(n) => Positive(p, SpellNumber(p, n), n) || Negative(p, SpellNumber(p, n), n)
    case ListLit(items) => forall i :: 0 <= i < |items| ==> Spelled(p, items[i])
    case _ => true
  }

  lemma {:induction false} FiniteSpelled(p: FilterPlatform, v: Lit)
    requires Finite(p, v)
    ensures Spelled(p, v)
  {
    if v.NumberLit? { NumberShape(p, v.number); }
    else if v.ListLit? {
      forall i | 0 <= i < |v.items| ensures Spelled(p, v.items[i]) { FiniteSpelled(p, v.items[i]); }
    }
  }

  lemma {:induction false} NumberShape(p: FilterPlatform, n: Number)
    requires p.finite(n)
    ensures Positive(p, SpellNumber(p, n), n) || Negative(p, SpellNumber(p, n), n)
    ensures p.toNumber(SpellNumber(p, n)) == n
  {
  }

  function Nodes(v: Lit): (n: nat)
    ensures n > 0
  {
    if v.ListLit? then 1 + NodesAll(v.items) else 1
  }

  function NodesAll(items: seq<Lit>): nat {
    if items == [] then 0 else Nodes(items[0]) + NodesAll(items[1..])
  }

  /** Levels of lists above the deepest member. */
  function Depth(v: Lit): nat {
    if v.ListLit? then DepthAll(v.items) else 0
  }

  function DepthAll(items: seq<Lit>): nat {
    if items == [] then 0 else Max(1 + Depth(items[0]), DepthAll(items[1..]))
  }

  /** Finite, and within what is left of the depth and node limits. */
  predicate Fits(p: Platform, v: Lit, depth: nat, budget: nat) {
    Finite(p, v) && Nodes(v) <= budget && depth + Depth(v) <= MAX_DEPTH
  }

  /** `encodeFilterLiteral`. */
  function Encode(p: Platform, v: Lit): Option<string> {
    if Fits(p, v, 0, MAX_NODES) then Some(Spell(p, v)) else None
  }

  /** The encoder with its running budget. */
  method EncodeLiteral(p: Platform, v: Lit, depth: nat, budget: nat) returns (text: Option<string>, left: nat)
    ensures text == if Fits(p, v, depth, budget) then Some(Spell(p, v)) else None
    ensures text.Some? ==> left == budget - Nodes(v)
    decreases v, 0
  {
    left := 0;
    if budget == 0 || depth > MAX_DEPTH { return None, left; }
    left := budget - 1;
    if v.NumberLit? && !p.finite(v.number) { return None, left; }
    if !v.ListLit? {
      assert Fits(p, v, depth, budget);
      return Some(Spell(p, v)), left;
    }
    FitsInside(p, v, depth, budget);
    var inner;
    inner, left := EncodeItems(p, v, v.items, depth + 1, left);
    text := if inner.None? then None else Some(['['] + (inner.value + [']']));
  }

  predicate FitsAll(p: Platform, items: seq<Lit>, depth: nat, budget: nat) {
    && FiniteAll(p, items) && NodesAll(items) <= budget
    && (items != [] ==> depth + DepthAll(items) <= MAX_DEPTH + 1)
  }

  lemma {:induction false} FitsInside(p: Platform, v: Lit, depth: nat, budget: nat)
    requires v.ListLit? && budget > 0 && depth <= MAX_DEPTH
    ensures Fits(p, v, depth, budget) <==> FitsAll(p, v.items, depth + 1, budget - 1)
  {
    assert Nodes(v) == 1 + NodesAll(v.items) && Depth(v) == DepthAll(v.items);
    assert Finite(p, v) <==> FiniteAll(p, v.items);
    if v.items == [] { assert DepthAll(v.items) == 0; }
  }

  predicate FiniteAll(p: Platform, items: seq<Lit>) { forall i :: 0 <= i < |items| ==> Finite(p, items[i]) }

  lemma {:induction false} FiniteSplit(p: Platform, items: seq<Lit>)
    requires items != []
    ensures FiniteAll(p, items) <==> Finite(p, items[0]) && FiniteAll(p, items[1..])
  {
    if Finite(p, items[0]) && FiniteAll(p, items[1..]) {
      forall i | 0 <= i < |items| ensures Finite(p, items[i]) { if i > 0 { assert items[1..][i - 1] == items[i]; } }
    }
    if FiniteAll(p, items) {
      forall i | 0 <= i < |items[1..]| ensures Finite(p, items[1..][i]) { assert items[1..][i] == items[i + 1]; }
    }
  }

  lemma {:induction false} FitsSplit(p: Platform, items: seq<Lit>, depth: nat, budget: nat)
    requires items != []
    ensures FitsAll(p, items, depth, budget) <==>
            Fits(p, items[0], depth, budget) && FitsAll(p, items[1..], depth, budget - Nodes(items[0]))
  {
    FiniteSplit(p, items);
    assert NodesAll(items) == Nodes(items[0]) + NodesAll(items[1..]);
    assert DepthAll(items) == Max(1 + Depth(items[0]), DepthAll(items[1..]));
    if items[1..] == [] { assert DepthAll(items[1..]) == 0; }
  }

  method EncodeItems(p: Platform, parent: Lit, items: seq<Lit>, depth: nat, budget: nat) returns (text: Option<string>, left: nat)
    requires forall i :: 0 <= i < |items| ==> items[i] < parent
    ensures text == if FitsAll(p, items, depth, budget) then Some(SpellAll(p, items)) else None
    ensures text.Some? ==> left == budget - NodesAll(items)
    decreases parent, -1, |items|
  {
    left := budget;
    if items == [] { return Some(""), left; }
    FitsSplit(p, items, depth, budget);
    var first, rest;
    first, left := EncodeLiteral(p, items[0], depth, left);
    if first.None? { return None, left; }
    rest, left := EncodeItems(p, parent, items[1..], depth, left);
    text := if rest.None? then None else Some(if |items| == 1 then first.value else first.value + ([','] + (" " + rest.value)));
  }

  // ----- the tree and the tokens of a literal

  function LitExpr(p: Platform, v: Lit): Expr {
    match v
    case NullLit => Literal(Null)
    case TextLit(s) => Literal(Str(s))
    case FlagLit(b) => Literal(Bool(b))
    case NumberLit(n) =>
      var s := SpellNumber(p, n);
      if s != "" && s[0] == '-' then Unary("-", Literal(Num(p.toNumber(s[1..])))) else Literal(Num(p.toNumber(s)))
    case ListLit(items) => ListOf(LitExprs(p, items))
  }

  function LitExprs(p: Platform, items: seq<Lit>): (es: seq<Expr>)
    ensures |es| == |items|
  {
    if items == [] then [] else [LitExpr(p, items[0])] + LitExprs(p, items[1..])
  }

  function LitToks(p: Platform, v: Lit): (ts: seq<Token>)
    ensures |ts| > 0
  {
    match v
    case NullLit => [Name("null")]
    case TextLit(s) => [Text(s)]
    case FlagLit(b) => [Name(if b then "true" else "false")]
    case NumberLit(n) =>
      var s := SpellNumber(p, n);
      if s != "" && s[0] == '-' then [Symbol("-"), Numeral(s[1..])] else [Numeral(s)]
    case ListLit(items) => [Symbol("[")] + (LitToksAll(p, items) + [Symbol("]")])
  }

  function LitToksAll(p: Platform, items: seq<Lit>): seq<Token> {
    if items == [] then []
    else if |items| == 1 then LitToks(p, items[0])
    else LitToks(p, items[0]) + ([Symbol(",")] + LitToksAll(p, items[1..]))
  }

  // ----- lexing

  lemma {:induction false} NumeralStarts(s: string)
    requires IsNumeral(s)
    ensures IsDigit(s[0]) || s[0] == '.'
  {
  }

  lemma {:induction false} LexSigned(p: LawfulPlatform, digits: string, rest: string, ts: seq<Token>)
    requires IsNumeral(digits) && LexesTo(p, rest, ts) && Stops(rest)
    ensures LexesTo(p, ['-'] + (digits + rest), [Symbol("-")] + ([Numeral(digits)] + ts))
  {
    NumeralStarts(digits);
    LexNumeral(p, digits, rest, ts);
    var c := (digits + rest)[0];
    assert c == digits[0] && ['-', c] !in PAIRS;
    LexSingle(p, '-', digits + rest, [Numeral(digits)] + ts);
  }

  lemma {:induction false} SignOf(p: Platform, n: Number)
    requires Spelled(p, NumberLit(n))
    ensures var s := SpellNumber(p, n); s != "" && if s[0] == '-' then IsNumeral(s[1..]) else IsNumeral(s)
  {
    var s := SpellNumber(p, n);
    if IsNumeral(s) { NumeralStarts(s); }
  }

  lemma {:induction false} LexNumber(p: LawfulPlatform, n: Number, rest: string, ts: seq<Token>)
    requires Spelled(p, NumberLit(n)) && LexesTo(p, rest, ts) && Stops(rest)
    ensures LexesTo(p, SpellNumber(p, n) + rest, LitToks(p, NumberLit(n)) + ts)
  {
    var s := SpellNumber(p, n);
    SignOf(p, n);
    if s[0] == '-' {
      LexSigned(p, s[1..], rest, ts);
      SignSplits(s, rest, ts);
    } else {
      LexNumeral(p, s, rest, ts);
    }
  }

  lemma {:induction false} SignSplits(s: string, rest: string, ts: seq<Token>)
    requires s != "" && s[0] == '-'
    ensures s + rest == ['-'] + (s[1..] + rest)
    ensures [Symbol("-"), Numeral(s[1..])] + ts == [Symbol("-")] + ([Numeral(s[1..])] + ts)
  {
  }

  lemma {:induction false} LexLit(p: LawfulPlatform, v: Lit, rest: string, ts: seq<Token>)
    requires Spelled(p, v) && LexesTo(p, rest, ts) && Stops(rest)
    ensures LexesTo(p, Spell(p, v) + rest, LitToks(p, v) + ts)
    decreases v, 0
  {
    match v
    case NullLit => LexKeyword(p, "null", rest, ts);
    case TextLit(s) => LexText(p, s, rest, ts);
    case FlagLit(b) => LexKeyword(p, if b then "true" else "false", rest, ts);
    case NumberLit(n) => LexNumber(p, n, rest, ts);
    case ListLit(items) =>
      LexLits(p, v, items, '[', ']', rest, ts);
      Joined(['['], SpellAll(p, items) + [']'], rest);
      Joined(SpellAll(p, items), [']'], rest);
      Joined([Symbol("[")], LitToksAll(p, items) + [Symbol("]")], ts);
      Joined(LitToksAll(p, items), [Symbol("]")], ts);
  }

  /** Items between brackets; `parent` bounds the recursion. */
  lemma {:induction false} LexLits(p: LawfulPlatform, parent: Lit, items: seq<Lit>, open: char, close: char, rest: string, ts: seq<Token>)
    requires LexesTo(p, rest, ts) && open in "([" && close in ")]"
    requires forall i :: 0 <= i < |items| ==> items[i] < parent && Spelled(p, items[i])
    ensures LexesTo(p, [open] + (SpellAll(p, items) + ([close] + rest)),
                    [Symbol([open])] + (LitToksAll(p, items) + ([Symbol([close])] + ts)))
    decreases parent, -1, |items| + 1
  {
    LexSingle(p, close, rest, ts);
    LexMoreLits(p, parent, items, [close] + rest, [Symbol([close])] + ts);
    LexSingle(p, open, SpellAll(p, items) + ([close] + rest), LitToksAll(p, items) + ([Symbol([close])] + ts));
  }

  lemma {:induction false} LexMoreLits(p: LawfulPlatform, parent: Lit, items: seq<Lit>, rest: string, ts: seq<Token>)
    requires rest != "" && rest[0] in ")]" && LexesTo(p, rest, ts)
    requires forall i :: 0 <= i < |items| ==> items[i] < parent && Spelled(p, items[i])
    ensures LexesTo(p, SpellAll(p, items) + rest, LitToksAll(p, items) + ts)
    decreases parent, -1, |items|
  {
    if items == [] {
      assert SpellAll(p, items) + rest == rest && LitToksAll(p, items) + ts == ts;
    } else if |items| == 1 {
      LexLit(p, items[0], rest, ts);
    } else {
      var text, toks := SpellAll(p, items[1..]) + rest, LitToksAll(p, items[1..]) + ts;
      LexMoreLits(p, parent, items[1..], rest, ts);
      LexSpace(p, text, toks);
      LexSingle(p, ',', " " + text, toks);
      LexLit(p, items[0], [','] + (" " + text), [Symbol(",")] + toks);
      Joined(Spell(p, items[0]), [','] + (" " + SpellAll(p, items[1..])), rest);
      Joined([','], " " + SpellAll(p, items[1..]), rest);
      Joined(" ", SpellAll(p, items[1..]), rest);
      Joined(LitToks(p, items[0]), [Symbol(",")] + LitToksAll(p, items[1..]), ts);
      Joined([Symbol(",")], LitToksAll(p, items[1..]), ts);
    }
  }

  // ----- parsing

  lemma {:induction false} FirstLitTok(p: Platform, v: Lit)
    requires Spelled(p, v)
    ensures var t := LitToks(p, v)[0]; !t.Stray? && !t.End? && t !in [Symbol(")"), Symbol("]"), Symbol(",")]
  {
  }

  lemma {:induction false} ParseNumber(p: Platform, n: Number, rest: seq<Token>, levels: nat, minimum: nat)
    requires Spelled(p, NumberLit(n)) && Closes(rest) && levels >= 2
    ensures ExpressionIs(p, LitToks(p, NumberLit(n)) + rest, levels, minimum, Parsed(LitExpr(p, NumberLit(n)), rest))
  {
    var s, e := SpellNumber(p, n), LitExpr(p, NumberLit(n));
    Settles(p, e, rest, levels - 1, minimum);
    if Positive(p, s, n) {
      NumeralStarts(s);
      AtomPrimary(p, Numeral(s), rest, levels - 1);
      PrimaryFirst(p, [Numeral(s)] + rest, levels - 1, minimum, e, rest, true, Parsed(e, rest));
    } else {
      var digits, operand := s[1..], Literal(Num(p.toNumber(s[1..])));
      AtomPrimary(p, Numeral(digits), rest, levels - 2);
      Settles(p, operand, rest, levels - 2, 7);
      PrimaryFirst(p, [Numeral(digits)] + rest, levels - 2, 7, operand, rest, true, Parsed(operand, rest));
      PrefixPrimary(p, "-", operand, [Numeral(digits)] + rest, rest, levels - 1, true);
      PrimaryFirst(p, [Symbol("-")] + ([Numeral(digits)] + rest), levels - 1, minimum, e, rest, true, Parsed(e, rest));
      assert [Symbol("-"), Numeral(digits)] + rest == [Symbol("-")] + ([Numeral(digits)] + rest);
    }
  }

  lemma {:induction false} ParseAtomLit(p: Platform, v: Lit, rest: seq<Token>, levels: nat, minimum: nat)
    requires !v.NumberLit? && !v.ListLit? && Closes(rest) && levels >= 1
    ensures ExpressionIs(p, LitToks(p, v) + rest, levels, minimum, Parsed(LitExpr(p, v), rest))
  {
    var e := LitExpr(p, v);
    AtomPrimary(p, LitToks(p, v)[0], rest, levels - 1);
    Settles(p, e, rest, levels - 1, minimum);
    PrimaryFirst(p, LitToks(p, v) + rest, levels - 1, minimum, e, rest, true, Parsed(e, rest));
  }

  /** A literal within the depth limit is well within the parser's nesting limit. */
  lemma {:induction false} ParseLit(p: Platform, v: Lit, rest: seq<Token>, levels: nat, minimum: nat)
    requires Spelled(p, v) && Closes(rest) && levels >= Depth(v) + 2
    ensures ExpressionIs(p, LitToks(p, v) + rest, levels, minimum, Parsed(LitExpr(p, v), rest))
    decreases v, 0
  {
    if v.NumberLit? { ParseNumber(p, v.number, rest, levels, minimum); }
    else if v.ListLit? { ParseListLit(p, v, rest, levels, minimum); }
    else { ParseAtomLit(p, v, rest, levels, minimum); }
  }

  lemma {:induction false} LitsSound(p: Platform, items: seq<Lit>, close: string, rest: seq<Token>)
    requires close in [")", "]"] && forall i :: 0 <= i < |items| ==> Spelled(p, items[i])
    ensures Sound(LitToksAll(p, items) + ([Symbol(close)] + rest))
    ensures items != [] ==> (LitToksAll(p, items) + ([Symbol(close)] + rest))[0] != Symbol(close)
  {
    if items == [] { assert LitToksAll(p, items) + ([Symbol(close)] + rest) == [Symbol(close)] + rest; }
    else {
      FirstLitTok(p, items[0]);
      assert (LitToksAll(p, items) + ([Symbol(close)] + rest))[0] == LitToks(p, items[0])[0];
    }
  }

  lemma {:induction false} ParseListLit(p: Platform, v: Lit, rest: seq<Token>, levels: nat, minimum: nat)
    requires v.ListLit? && Spelled(p, v) && Closes(rest) && levels >= Depth(v) + 2
    ensures ExpressionIs(p, LitToks(p, v) + rest, levels, minimum, Parsed(LitExpr(p, v), rest))
    decreases v, -1
  {
    var e, closing := LitExpr(p, v), [Symbol("]")] + rest;
    var inner := LitToksAll(p, v.items) + closing;
    ParseLits(p, v, v.items, "]", rest, levels - 1);
    LitsSound(p, v.items, "]", rest);
    BracketsParse(p, e, inner, rest, levels, minimum);
    ListToks(p, v, rest);
  }

  lemma {:induction false} BracketsParse(p: Platform, e: Expr, inner: seq<Token>, rest: seq<Token>, levels: nat, minimum: nat)
    requires e.ListOf? && Sound(inner) && Closes(rest) && levels > 0
    requires ItemsAre(p, inner, levels - 1, "]", Parsed(e.items, rest))
    ensures ExpressionIs(p, [Symbol("[")] + inner, levels, minimum, Parsed(e, rest))
  {
    ListPrimary(p, e.items, inner, rest, levels - 1, true);
    Settles(p, e, rest, levels - 1, minimum);
    PrimaryFirst(p, [Symbol("[")] + inner, levels - 1, minimum, e, rest, true, Parsed(e, rest));
  }

  lemma {:induction false} ListToks(p: Platform, v: Lit, rest: seq<Token>)
    requires v.ListLit?
    ensures LitToks(p, v) + rest == [Symbol("[")] + (LitToksAll(p, v.items) + ([Symbol("]")] + rest))
  {
    Joined([Symbol("[")], LitToksAll(p, v.items) + [Symbol("]")], rest);
    Joined(LitToksAll(p, v.items), [Symbol("]")], rest);
  }

  lemma {:induction false} ParseLits(p: Platform, parent: Lit, items: seq<Lit>, close: string, rest: seq<Token>, levels: nat)
    requires Sound(rest) && close in [")", "]"] && levels >= 1 + DepthAll(items)
    requires forall i :: 0 <= i < |items| ==> items[i] < parent && Spelled(p, items[i])
    ensures ItemsAre(p, LitToksAll(p, items) + ([Symbol(close)] + rest), levels, close, Parsed(LitExprs(p, items), rest))
    decreases parent, -2, |items| + 1
  {
    if items == [] {
      assert LitToksAll(p, items) + ([Symbol(close)] + rest) == [Symbol(close)] + rest;
      NoItems(p, close, rest, levels);
    } else {
      LitsSound(p, items, close, rest);
      ParseMoreLits(p, parent, items, close, rest, levels);
      SomeItems(p, LitToksAll(p, items) + ([Symbol(close)] + rest), close, levels, Parsed(LitExprs(p, items), rest));
    }
  }

  lemma {:induction false} ParseMoreLits(p: Platform, parent: Lit, items: seq<Lit>, close: string, rest: seq<Token>, levels: nat)
    requires Sound(rest) && close in [")", "]"] && items != [] && levels >= 1 + DepthAll(items)
    requires forall i :: 0 <= i < |items| ==> items[i] < parent && Spelled(p, items[i])
    ensures MoreItemsAre(p, LitToksAll(p, items) + ([Symbol(close)] + rest), levels, close, Parsed(LitExprs(p, items), rest))
    decreases parent, -2, |items|
  {
    var closing := [Symbol(close)] + rest;
    var first := LitExpr(p, items[0]);
    if |items| == 1 {
      ParseLit(p, items[0], closing, levels, 0);
      assert LitExprs(p, items) == [first];
      LastItem(p, first, LitToks(p, items[0]) + closing, close, rest, levels, true);
    } else {
      var more := LitToksAll(p, items[1..]) + closing;
      LitsSound(p, items[1..], close, rest);
      ParseLit(p, items[0], [Symbol(",")] + more, levels, 0);
      ParseMoreLits(p, parent, items[1..], close, rest, levels);
      NextItem(p, first, LitExprs(p, items[1..]), LitToks(p, items[0]) + ([Symbol(",")] + more), more, close, rest, levels, true, true);
      Joined(LitToks(p, items[0]), [Symbol(",")] + LitToksAll(p, items[1..]), closing);
      Joined([Symbol(",")], LitToksAll(p, items[1..]), closing);
    }
  }

  // ----- reading a literal from a tree

  /** `literal` of the decoder, with the nodes it may still visit. */
  function DecodeLit(p: Platform, e: Expr, depth: nat, left: nat): Option<(Lit, nat)>
    decreases e, 0
  {
    if left == 0 || depth > MAX_DEPTH then None
    else
      match e
      case Literal(Null) => Some((NullLit, left - 1))
      case Literal(Str(s)) => Some((TextLit(s), left - 1))
      case Literal(Bool(b)) => Some((FlagLit(b), left - 1))
      case Literal(Num(n)) => if p.finite(n) then Some((NumberLit(n), left - 1)) else None
      case Unary("-", Literal(Num(n))) => if p.finite(n) then Some((NumberLit(p.negate(n)), left - 1)) else None
      case ListOf(items) =>
        (match DecodeLits(p, items, depth + 1, left - 1)
         case None => None
         case Some((values, rest)) => Some((ListLit(values), rest)))
      case _ => None
  }

  function DecodeLits(p: Platform, es: seq<Expr>, depth: nat, left: nat): Option<(seq<Lit>, nat)>
    decreases es, 1
  {
    if es == [] then Some(([], left))
    else
      match DecodeLit(p, es[0], depth, left)
      case None => None
      case Some((first, l)) =>
        match DecodeLits(p, es[1..], depth, l)
        case None => None
        case Some((rest, l')) => Some(([first] + rest, l'))
  }

  lemma {:induction false} DecodeNumber(p: Platform, n: Number, depth: nat, left: nat)
    requires p.finite(n) && Spelled(p, NumberLit(n)) && left > 0 && depth <= MAX_DEPTH
    ensures DecodeLit(p, LitExpr(p, NumberLit(n)), depth, left) == Some((NumberLit(n), left - 1))
  {
    var s := SpellNumber(p, n);
    SignApart(p, n);
    if s != "" && s[0] == '-' { assert Negative(p, s, n); } else { assert Positive(p, s, n); }
  }

  lemma {:induction false} SignApart(p: Platform, n: Number)
    requires Spelled(p, NumberLit(n))
    ensures var s := SpellNumber(p, n); if s != "" && s[0] == '-' then Negative(p, s, n) else Positive(p, s, n)
  {
    var s := SpellNumber(p, n);
    if Positive(p, s, n) { NumeralStarts(s); }
  }

  /** The decoder's limits are those of the encoder. */
  lemma {:induction false} DecodeEncoded(p: Platform, v: Lit, depth: nat, left: nat)
    requires Fits(p, v, depth, left) && Spelled(p, v)
    ensures DecodeLit(p, LitExpr(p, v), depth, left) == Some((v, left - Nodes(v)))
    decreases v, 0
  {
    if v.ListLit? { DecodeEncodedAll(p, v, v.items, depth + 1, left - 1); }
    else if v.NumberLit? { DecodeNumber(p, v.number, depth, left); }
  }

  lemma {:induction false} DecodeEncodedAll(p: Platform, parent: Lit, items: seq<Lit>, depth: nat, left: nat)
    requires FitsAll(p, items, depth, left) && forall i :: 0 <= i < |items| ==> items[i] < parent && Spelled(p, items[i])
    ensures DecodeLits(p, LitExprs(p, items), depth, left) == Some((items, left - NodesAll(items)))
    decreases parent, -1, |items|
  {
    if items != [] {
      FitsSplit(p, items, depth, left);
      DecodeEncoded(p, items[0], depth, left);
      DecodeEncodedAll(p, parent, items[1..], depth, left - Nodes(items[0]));
      assert LitExprs(p, items)[1..] == LitExprs(p, items[1..]);
      assert [items[0]] + items[1..] == items;
    }
  }
}
