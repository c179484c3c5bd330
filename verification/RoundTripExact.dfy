/** Which trees come back from their printed text: the dots of the text are counted,
    once by the lexer and once by the parser. */
module RoundTripExact {
  import opened Platforms
  import opened Syntax
  import opened Lexing
  import opened Parsing
  import opened Printing
  import opened LexPrinted
  import opened RoundTrip

  // ----- the dots of a tree and of tokens

  /** The members of `e` that are written with a dot. */
  function Dots(e: Expr): nat {
    match e
    case Literal(_) => 0
    case Identifier(_) => 0
    case ListOf(items) => DotsAll(items)
    case Unary(_, operand) => Dots(operand)
    case Binary(_, left, right) => Dots(left) + Dots(right)
    case Member(owner, key, computed) => Dots(owner) + Dots(key) + (if computed then 0 else 1)
    case Call(callee, args) => Dots(callee) + DotsAll(args)
  }

  function DotsAll(items: seq<Expr>): nat {
    if items == [] then 0 else Dots(items[0]) + DotsAll(items[1..])
  }

  /** Those of them whose dot stays a dot in the printed text. */
  function Kept(p: Platform, e: Expr): nat {
    match e
    case Literal(_) => 0
    case Identifier(_) => 0
    case ListOf(items) => KeptAll(p, items)
    case Unary(_, operand) => Kept(p, operand)
    case Binary(_, left, right) => Kept(p, left) + Kept(p, right)
    case Member(owner, key, computed) => Kept(p, owner) + Kept(p, key) + (if computed || PrintsAsDigits(p, owner) then 0 else 1)
    case Call(callee, args) => Kept(p, callee) + KeptAll(p, args)
  }

  function KeptAll(p: Platform, items: seq<Expr>): nat {
    if items == [] then 0 else Kept(p, items[0]) + KeptAll(p, items[1..])
  }

  function DotTokens(ts: seq<Token>): nat {
    if ts == [] then 0 else (if ts[0] == Symbol(".") then 1 else 0) + DotTokens(ts[1..])
  }

  lemma {:induction false} KeptDots(p: Platform, e: Expr)
    requires AllFinite(p, e)
    ensures if Printable(p, e) then Kept(p, e) == Dots(e) else Kept(p, e) < Dots(e)
    decreases e, 0
  {
    match e
    case Literal(_) =>
    case Identifier(_) =>
    case ListOf(items) => KeptDotsAll(p, e, items);
    case Unary(_, operand) => KeptDots(p, operand);
    case Binary(_, left, right) =>
      KeptDots(p, left);
      KeptDots(p, right);
    case Member(owner, key, _) =>
      KeptDots(p, owner);
      KeptDots(p, key);
    case Call(callee, args) =>
      KeptDots(p, callee);
      KeptDotsAll(p, e, args);
  }

  lemma {:induction false} KeptDotsAll(p: Platform, parent: Expr, items: seq<Expr>)
    requires forall i :: 0 <= i < |items| ==> items[i] < parent && AllFinite(p, items[i])
    ensures if forall i :: 0 <= i < |items| ==> Printable(p, items[i]) then KeptAll(p, items) == DotsAll(items) else KeptAll(p, items) < DotsAll(items)
    decreases parent, -1, |items|
  {
    if items != [] {
      KeptDots(p, items[0]);
      KeptDotsAll(p, parent, items[1..]);
      assert forall i :: 0 < i < |items| ==> items[i] == items[1..][i - 1];
    }
  }

  // ----- the parser: every member with a dot takes one dot of the tokens

  lemma {:induction false} DotsAfter(ts: seq<Token>)
    requires Advance(ts).Some?
    ensures DotTokens(ts) == (if ts[0] == Symbol(".") then 1 else 0) + DotTokens(Advance(ts).value)
  {
  }

  lemma {:induction false} ExpressionDots(p: Platform, ts: seq<Token>, levels: nat, minimum: nat)
    ensures var r := Expression(p, ts, levels, minimum); r.Parsed? ==> Dots(r.value) + DotTokens(r.rest) <= DotTokens(ts)
    decreases |ts|, 3
  {
    if levels > 0 {
      PrimaryDots(p, ts, levels - 1);
      var first := Primary(p, ts, levels - 1);
      if first.Parsed? { SuffixesDots(p, first.value, first.rest, levels - 1, minimum); }
    }
  }

  lemma {:induction false} PrimaryDots(p: Platform, ts: seq<Token>, levels: nat)
    ensures var r := Primary(p, ts, levels); r.Parsed? ==> Dots(r.value) + DotTokens(r.rest) <= DotTokens(ts)
    decreases |ts|, 2
  {
    if Advance(ts).Some? {
      var after := Advance(ts).value;
      DotsAfter(ts);
      if ts[0] == Symbol("-") || ts[0] == Symbol("!") {
        ExpressionDots(p, after, levels, 7);
      } else if ts[0] == Symbol("(") {
        ExpressionDots(p, after, levels, 0);
        var inner := Expression(p, after, levels, 0);
        if inner.Parsed? && Expect(inner.rest, ")").Some? { DotsAfter(inner.rest); }
      } else if ts[0] == Symbol("[") {
        ItemsDots(p, after, levels, "]");
      }
    }
  }

  lemma {:induction false} ItemsDots(p: Platform, ts: seq<Token>, levels: nat, close: string)
    ensures var r := Items(p, ts, levels, close); r.Parsed? ==> DotsAll(r.value) + DotTokens(r.rest) <= DotTokens(ts)
    decreases |ts|, 5
  {
    if ts == [] || ts[0] != Symbol(close) { MoreItemsDots(p, ts, levels, close); }
    else if Advance(ts).Some? { DotsAfter(ts); }
  }

  lemma {:induction false} MoreItemsDots(p: Platform, ts: seq<Token>, levels: nat, close: string)
    ensures var r := MoreItems(p, ts, levels, close); r.Parsed? ==> DotsAll(r.value) + DotTokens(r.rest) <= DotTokens(ts)
    decreases |ts|, 4
  {
    ExpressionDots(p, ts, levels, 0);
    var item := Expression(p, ts, levels, 0);
    if item.Parsed? && Advance(item.rest).Some? {
      var after := Advance(item.rest).value;
      DotsAfter(item.rest);
      OneMore(item.value, []);
      if item.rest[0] == Symbol(",") {
        MoreItemsDots(p, after, levels, close);
        var more := MoreItems(p, after, levels, close);
        if more.Parsed? { OneMore(item.value, more.value); }
      }
    }
  }

  lemma {:induction false} OneMore(e: Expr, items: seq<Expr>)
    ensures DotsAll([e] + items) == Dots(e) + DotsAll(items)
  {
    assert ([e] + items)[1..] == items && [e] + [] == [e];
  }

  lemma {:induction false} SuffixDots(p: Platform, node: Expr, ts: seq<Token>, levels: nat, minimum: nat)
    ensures var r := Suffix(p, node, ts, levels, minimum);
            r.Grown? ==> Dots(r.node) + DotTokens(r.rest) <= Dots(node) + DotTokens(ts)
    decreases |ts|, 0, 1
  {
    if Advance(ts).Some? {
      var after := Advance(ts).value;
      DotsAfter(ts);
      if ts[0] == Symbol(".") { if Advance(after).Some? { DotsAfter(after); } }
      else if ts[0] == Symbol("[") { KeyDots(p, node, ts, levels, minimum); }
      else if ts[0] == Symbol("(") { ItemsDots(p, after, levels, ")"); }
      else if TokenStrength(ts[0]) >= minimum { ExpressionDots(p, after, levels, TokenStrength(ts[0]) + 1); }
    }
  }

  lemma {:induction false} KeyDots(p: Platform, node: Expr, ts: seq<Token>, levels: nat, minimum: nat)
    requires Advance(ts).Some? && ts[0] == Symbol("[")
    ensures var r := Suffix(p, node, ts, levels, minimum);
            r.Grown? ==> Dots(r.node) + DotTokens(r.rest) <= Dots(node) + DotTokens(ts)
    decreases |ts|, 0, 0
  {
    var after := Advance(ts).value;
    DotsAfter(ts);
    ExpressionDots(p, after, levels, 0);
    var key := Expression(p, after, levels, 0);
    if key.Parsed? && Expect(key.rest, "]").Some? { DotsAfter(key.rest); }
  }

  lemma {:induction false} SuffixesDots(p: Platform, node: Expr, ts: seq<Token>, levels: nat, minimum: nat)
    ensures var r := Suffixes(p, node, ts, levels, minimum);
            r.Parsed? ==> Dots(r.value) + DotTokens(r.rest) <= Dots(node) + DotTokens(ts)
    decreases |ts|, 1
  {
    SuffixDots(p, node, ts, levels, minimum);
    var r := Suffix(p, node, ts, levels, minimum);
    if r.Grown? { SuffixesDots(p, r.node, r.rest, levels, minimum); }
  }

  // ----- the lexer: no more dots than are kept

  /** `s` lexes to at most `n` dots; unfolded only on demand. */
  ghost predicate AtMost(p: Platform, s: string, n: nat) {
    forall text {:trigger Tokens(p, text)} :: text == s ==> DotTokens(Tokens(p, text)) <= n
  }

  lemma {:induction false} Counted(p: Platform, s: string, t: Token, rest: string, n: nat)
    requires LexesTo(p, s, [t] + Tokens(p, rest)) && AtMost(p, rest, n)
    ensures AtMost(p, s, n + if t == Symbol(".") then 1 else 0)
  {
    assert ([t] + Tokens(p, rest))[1..] == Tokens(p, rest);
    assert Tokens(p, s) == [t] + Tokens(p, rest);
  }

  lemma {:induction false} LexesItself(p: Platform, s: string)
    ensures LexesTo(p, s, Tokens(p, s))
  {
  }

  lemma {:induction false} CountSingle(p: LawfulPlatform, c: char, rest: string, n: nat)
    requires c in SINGLES && AtMost(p, rest, n)
    requires rest == "" || [c, rest[0]] !in PAIRS
    requires c == '.' ==> rest != "" && !IsDigit(rest[0])
    ensures AtMost(p, [c] + rest, n + if c == '.' then 1 else 0)
  {
    LexesItself(p, rest);
    LexSingle(p, c, rest, Tokens(p, rest));
    Counted(p, [c] + rest, Symbol([c]), rest, n);
    assert c != '.' ==> [c] != ".";
  }

  lemma {:induction false} CountSpace(p: LawfulPlatform, rest: string, n: nat)
    requires AtMost(p, rest, n)
    ensures AtMost(p, " " + rest, n)
  {
    LexesItself(p, rest);
    LexSpace(p, rest, Tokens(p, rest));
    assert Tokens(p, " " + rest) == Tokens(p, rest);
  }

  lemma {:induction false} CountName(p: LawfulPlatform, name: string, rest: string, n: nat)
    requires IsName(p, name) && AtMost(p, rest, n) && (Stops(rest) || rest[0] == '.')
    ensures AtMost(p, name + rest, n)
  {
    StopsName(p, rest);
    LexesItself(p, rest);
    LexName(p, name, rest, Tokens(p, rest));
    Counted(p, name + rest, Name(name), rest, n);
  }

  lemma {:induction false} CountOperator(p: LawfulPlatform, operator: string, rest: string, n: nat)
    requires rest != "" && AtMost(p, rest, n)
    requires (operator in BINARY && rest[0] == ' ') || (operator in UNARY && rest[0] != '=')
    ensures AtMost(p, operator + rest, n)
  {
    LexesItself(p, rest);
    LexOperator(p, operator, rest, Tokens(p, rest));
    Counted(p, operator + rest, Symbol(operator), rest, n);
  }

  lemma {:induction false} CountLiteral(p: LawfulPlatform, value: Value, rest: string, n: nat)
    requires WellFormed(p, Literal(value)) && AllFinite(p, Literal(value)) && AtMost(p, rest, n)
    requires Stops(rest) || (rest[0] == '.' && !PrintsAsDigits(p, Literal(value)))
    ensures AtMost(p, Render(p, Literal(value)) + rest, n)
  {
    LexesItself(p, rest);
    LexLiteral(p, value, rest, Tokens(p, rest));
    var t := Toks(p, Literal(value))[0];
    assert Toks(p, Literal(value)) == [t];
    Counted(p, Render(p, Literal(value)) + rest, t, rest, n);
  }

  // ----- a number printed as digits takes the dot

  /** What is left of a name, from any of its characters on: one name, or no token at all. */
  lemma {:induction false} CountTail(p: LawfulPlatform, left: string, rest: string, n: nat)
    requires forall i :: 0 <= i < |left| ==> ExtendsName(p, left[i])
    requires left != "" ==> !IsDigit(left[0])
    requires AtMost(p, rest, n) && (Stops(rest) || rest[0] == '.')
    ensures AtMost(p, left + rest, n)
  {
    if left == "" { assert left + rest == rest; }
    else if StartsName(p, left[0]) { CountName(p, left, rest, n); }
    else { MarkIsStray(p, left + rest); }
  }

  lemma {:induction false} MarkIsStray(p: LawfulPlatform, s: string)
    requires s != "" && p.mark(s[0]) && !StartsName(p, s[0]) && !IsDigit(s[0])
    ensures AtMost(p, s, 0)
  {
    MarkScans(p, s);
    StrayStops(p, s);
  }

  lemma {:induction false} MarkScans(p: LawfulPlatform, s: string)
    requires s != "" && p.mark(s[0]) && !StartsName(p, s[0]) && !IsDigit(s[0])
    ensures !p.space(s[0]) && Scan(p, s).0 == Stray
  {
    var c := s[0];
    assert c !in PUNCTUATION && !p.space(c);
    assert c != '"' && c != '\'' && c != '.';
    MarkIsNoNumeral(s);
    assert NameLength(p, s) == 0;
    assert c !in SINGLES && |s| > 1 ==> s[..2][0] == c;
  }

  lemma {:induction false} MarkIsNoNumeral(s: string)
    requires s != "" && !IsDigit(s[0]) && s[0] != '.'
    ensures NumeralLength(s) == 0
  {
  }

  lemma {:induction false} StrayStops(p: Platform, s: string)
    requires s != "" && !p.space(s[0]) && Scan(p, s).0 == Stray
    ensures AtMost(p, s, 0)
  {
    NoSpace(p, s);
    StrayEnds(p, s, s);
    NoDotTokens(Stray);
  }

  lemma {:induction false} StrayEnds(p: Platform, s: string, left: string)
    requires SkipSpaces(p, s) == left && Scan(p, left).0 == Stray
    ensures Tokens(p, s) == [Stray]
  {
  }

  lemma {:induction false} NoDotTokens(t: Token)
    requires t != Symbol(".")
    ensures DotTokens([t]) == 0
  {
  }

  lemma {:induction false} DigitsThen(digits: string, name: string, rest: string)
    requires digits != "" && Digits(digits) == |digits| && name != "" && !IsDigit(name[0])
    requires rest == "" || (rest[0] != '+' && rest[0] != '-' && !IsDigit(rest[0]))
    ensures NumeralLength(digits + ("." + (name + rest))) == |digits| + 1 + ExponentLength(name)
  {
    DotJoins(digits, name + rest);
    ExponentOfName(name, rest);
  }

  lemma {:induction false} ExponentOfName(name: string, rest: string)
    requires name != "" && (rest == "" || (rest[0] != '+' && rest[0] != '-' && !IsDigit(rest[0])))
    ensures ExponentLength(name + rest) == ExponentLength(name)
  {
    var sign := if |name| > 1 && (name[1] == '+' || name[1] == '-') then 1 else 0;
    assert (name + rest)[1 + sign..] == name[1 + sign..] + rest;
    DigitsPrefix(name[1 + sign..], rest);
  }

  /** After an exponent, no digit is left. */
  lemma {:induction false} ExponentTakesDigits(name: string)
    requires name != "" && !IsDigit(name[0])
    ensures var left := name[ExponentLength(name)..]; left != "" ==> !IsDigit(left[0])
  {
    if ExponentLength(name) > 0 {
      var sign := if |name| > 1 && (name[1] == '+' || name[1] == '-') then 1 else 0;
      var digits := name[1 + sign..];
      assert name[1 + sign + Digits(digits)..] == digits[Digits(digits)..];
    }
  }

  lemma {:induction false} CountDigitsDot(p: LawfulPlatform, digits: string, name: string, rest: string, n: nat)
    requires digits != "" && Digits(digits) == |digits| && IsDigit(digits[0]) && IsName(p, name)
    requires AtMost(p, rest, n) && (Stops(rest) || rest[0] == '.')
    ensures AtMost(p, digits + ("." + (name + rest)), n)
  {
    var text, left := digits + ("." + (name + rest)), name[ExponentLength(name)..];
    StopsName(p, rest);
    ExponentTakesDigits(name);
    CountTail(p, left, rest, n);
    DigitsDotScans(p, digits, name, rest, left);
    NumeralFirst(p, text, text[..NumeralLength(text)], left + rest, n);
  }

  lemma {:induction false} NumeralFirst(p: Platform, s: string, numeral: string, rest: string, n: nat)
    requires s != "" && !p.space(s[0]) && Scan(p, s) == (Numeral(numeral), rest) && AtMost(p, rest, n)
    ensures AtMost(p, s, n)
  {
    TokensStep(p, s, Numeral(numeral), rest);
    Counted(p, s, Numeral(numeral), rest, n);
  }

  lemma {:induction false} DigitsDotScans(p: LawfulPlatform, digits: string, name: string, rest: string, left: string)
    requires digits != "" && Digits(digits) == |digits| && IsDigit(digits[0]) && IsName(p, name)
    requires (Stops(rest) || rest[0] == '.') && left == name[ExponentLength(name)..]
    ensures var text := digits + ("." + (name + rest));
            !p.space(text[0]) && Scan(p, text) == (Numeral(text[..NumeralLength(text)]), left + rest)
  {
    var text, k := digits + ("." + (name + rest)), ExponentLength(name);
    DigitsThen(digits, name, rest);
    SplitAfter(digits, name + rest, k);
    CutName(name, rest, k);
    assert text[0] == digits[0];
    RoundTrip.ScanNumeral(p, text, NumeralLength(text), left + rest);
  }

  lemma {:induction false} CutName(name: string, rest: string, k: nat)
    requires k <= |name|
    ensures (name + rest)[k..] == name[k..] + rest
  {
  }

  // ----- the whole text

  /** Printed text lexes to no more dots than are kept, whatever follows. */
  lemma {:induction false} CountRender(p: LawfulPlatform, e: Expr, rest: string, n: nat)
    requires WellFormed(p, e) && AllFinite(p, e) && AtMost(p, rest, n)
    requires Stops(rest) || (rest[0] == '.' && !PrintsAsDigits(p, e))
    ensures AtMost(p, Render(p, e) + rest, n + Kept(p, e))
    decreases e, 0
  {
    match e
    case Literal(value) => CountLiteral(p, value, rest, n);
    case Identifier(name) => CountName(p, name, rest, n);
    case ListOf(items) =>
      CountBracketed(p, e, items, '[', ']', rest, n);
      TextList(p, e, rest);
    case Unary(_, _) => CountUnary(p, e, rest, n);
    case Binary(_, _, _) => CountBinary(p, e, rest, n);
    case Call(_, _) => CountCall(p, e, rest, n);
    case Member(_, _, computed) => if computed { CountIndex(p, e, rest, n); } else { CountDotMember(p, e, rest, n); }
  }

  lemma {:induction false} CountUnary(p: LawfulPlatform, e: Expr, rest: string, n: nat)
    requires WellFormed(p, e) && AllFinite(p, e) && e.Unary? && AtMost(p, rest, n)
    ensures AtMost(p, Render(p, e) + rest, n + Kept(p, e))
    decreases e, -1
  {
    var t3, m := Render(p, e.operand) + (")" + rest), n + Kept(p, e.operand);
    CountSingle(p, ')', rest, n);
    CountRender(p, e.operand, ")" + rest, n);
    RenderStarts(p, e.operand);
    CountOperator(p, e.operator, t3, m);
    CountSingle(p, '(', e.operator + t3, m);
    TextUnary(p, e, rest);
  }

  lemma {:induction false} CountCall(p: LawfulPlatform, e: Expr, rest: string, n: nat)
    requires WellFormed(p, e) && AllFinite(p, e) && e.Call? && AtMost(p, rest, n)
    ensures AtMost(p, Render(p, e) + rest, n + Kept(p, e))
    decreases e, -1, |e.args| + 2
  {
    CountBracketed(p, e, e.args, '(', ')', rest, n);
    CountRender(p, e.callee, ['('] + (RenderAll(p, e.args) + ([')'] + rest)), n + KeptAll(p, e.args));
    TextCall(p, e, rest);
  }

  lemma {:induction false} CountIndex(p: LawfulPlatform, e: Expr, rest: string, n: nat)
    requires WellFormed(p, e) && AllFinite(p, e) && e.Member? && e.computed && AtMost(p, rest, n)
    ensures AtMost(p, Render(p, e) + rest, n + Kept(p, e))
    decreases e, -1, 3
  {
    var key := [e.key];
    CountBracketed(p, e, key, '[', ']', rest, n);
    assert RenderAll(p, key) == Render(p, e.key) && KeptAll(p, key) == Kept(p, e.key);
    CountRender(p, e.owner, ['['] + (Render(p, e.key) + ([']'] + rest)), n + Kept(p, e.key));
    TextIndex(p, e, rest);
  }

  lemma {:induction false} CountDotMember(p: LawfulPlatform, e: Expr, rest: string, n: nat)
    requires WellFormed(p, e) && AllFinite(p, e) && e.Member? && !e.computed && AtMost(p, rest, n)
    requires Stops(rest) || rest[0] == '.'
    ensures AtMost(p, Render(p, e) + rest, n + Kept(p, e))
    decreases e, -1
  {
    var name := e.key.value.text;
    TextDot(p, e, rest);
    if PrintsAsDigits(p, e.owner) {
      ShownDigits(p, e.owner.value.number);
      CountDigitsDot(p, p.showNumber(e.owner.value.number), name, rest, n);
    } else {
      CountName(p, name, rest, n);
      CountDot(p, name, rest, n);
      CountRender(p, e.owner, "." + (name + rest), n + 1);
    }
  }

  lemma {:induction false} CountDot(p: LawfulPlatform, name: string, rest: string, n: nat)
    requires IsName(p, name) && AtMost(p, name + rest, n)
    ensures AtMost(p, "." + (name + rest), n + 1)
  {
    CountSingle(p, '.', name + rest, n);
  }

  lemma {:induction false} CountBinary(p: LawfulPlatform, e: Expr, rest: string, n: nat)
    requires WellFormed(p, e) && AllFinite(p, e) && e.Binary? && AtMost(p, rest, n)
    ensures AtMost(p, Render(p, e) + rest, n + Kept(p, e))
    decreases e, -1
  {
    var t5 := ")" + rest;
    CountSingle(p, ')', rest, n);
    var t4, n4 := Render(p, e.right) + t5, n + Kept(p, e.right);
    CountRender(p, e.right, t5, n);
    CountSpace(p, t4, n4);
    var t2 := e.operator + (" " + t4);
    CountOperator(p, e.operator, " " + t4, n4);
    CountSpace(p, t2, n4);
    CountRender(p, e.left, " " + t2, n4);
    CountSingle(p, '(', Render(p, e.left) + (" " + t2), n4 + Kept(p, e.left));
    TextBinary(p, e, rest);
  }

  lemma {:induction false} CountBracketed(p: LawfulPlatform, parent: Expr, items: seq<Expr>, open: char, close: char, rest: string, n: nat)
    requires AtMost(p, rest, n) && open in "([" && close in ")]"
    requires forall i :: 0 <= i < |items| ==> items[i] < parent && WellFormed(p, items[i]) && AllFinite(p, items[i])
    ensures AtMost(p, [open] + (RenderAll(p, items) + ([close] + rest)), n + KeptAll(p, items))
    decreases parent, -1, |items| + 1
  {
    CountSingle(p, close, rest, n);
    CountRenderAll(p, parent, items, [close] + rest, n);
    CountSingle(p, open, RenderAll(p, items) + ([close] + rest), n + KeptAll(p, items));
  }

  lemma {:induction false} CountRenderAll(p: LawfulPlatform, parent: Expr, items: seq<Expr>, rest: string, n: nat)
    requires rest != "" && rest[0] in ")]" && AtMost(p, rest, n)
    requires forall i :: 0 <= i < |items| ==> items[i] < parent && WellFormed(p, items[i]) && AllFinite(p, items[i])
    ensures AtMost(p, RenderAll(p, items) + rest, n + KeptAll(p, items))
    decreases parent, -1, |items|
  {
    if items == [] {
      assert RenderAll(p, items) + rest == rest;
    } else if |items| == 1 {
      CountRender(p, items[0], rest, n);
    } else {
      var t2, n2 := RenderAll(p, items[1..]) + rest, n + KeptAll(p, items[1..]);
      CountRenderAll(p, parent, items[1..], rest, n);
      CountSpace(p, t2, n2);
      CountSingle(p, ',', " " + t2, n2);
      CountRender(p, items[0], "," + (" " + t2), n2);
      TextItems(p, items, rest);
    }
  }

  // ----- main result

  lemma {:induction false} ParsedDots(p: Platform, source: string, n: nat)
    requires AtMost(p, source, n)
    ensures var r := ParseText(p, source); r.Some? ==> Dots(r.value) <= n
  {
    ExpressionDots(p, Tokens(p, source), MAX_NESTING, 0);
  }

  lemma {:induction false} NoDots(p: Platform)
    ensures AtMost(p, "", 0)
  {
    EndOfText(p);
    NoDotTokens(End);
  }

  /** A finite tree comes back from its printed text exactly when no `.name` follows a
      number printed as digits and the parentheses stay within the nesting limit. */
  lemma {:induction false} ComesBackExactly(p: LawfulPlatform, e: Expr)
    requires WellFormed(p, e) && AllFinite(p, e)
    ensures ParseText(p, Render(p, e)) == Some(e) <==> Printable(p, e) && Nesting(e) <= MAX_NESTING
  {
    if Printable(p, e) { PrintedParses(p, e); }
    else {
      NoDots(p);
      CountRender(p, e, "", 0);
      assert Render(p, e) + "" == Render(p, e);
      ParsedDots(p, Render(p, e), Kept(p, e));
      KeptDots(p, e);
    }
  }
}
