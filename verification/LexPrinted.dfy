/** Lexing printed text gives the tokens of the tree. */
module LexPrinted {
  import opened Platforms
  import opened Syntax
  import opened Lexing
  import opened Printing

  /** Neither a name nor a printed number runs on into `rest`. */
  predicate Stops(rest: string) {
    rest == "" || rest[0] in " ,)](["
  }

  /** `s` lexes to `ts`. Stated so that the lexer is unfolded only on demand. */
  ghost predicate LexesTo(p: Platform, s: string, ts: seq<Token>) {
    forall text {:trigger Tokens(p, text)} :: text == s ==> Tokens(p, text) == ts
  }

  lemma {:induction false} RunPrefix(s: string, rest: string, ok: char -> bool)
    requires forall i :: 0 <= i < |s| ==> ok(s[i])
    requires rest == "" || !ok(rest[0])
    ensures Run(s + rest, ok) == |s|
  {
    if s == "" { assert s + rest == rest; }
    else {
      assert (s + rest)[1..] == s[1..] + rest;
      RunPrefix(s[1..], rest, ok);
    }
  }

  lemma {:induction false} NoSpace(p: Platform, s: string)
    requires s == "" || !p.space(s[0])
    ensures SkipSpaces(p, s) == s
  {
  }

  lemma {:induction false} TokensStep(p: Platform, s: string, t: Token, rest: string)
    requires s != "" && !p.space(s[0]) && Scan(p, s) == (t, rest) && !t.End? && !t.Stray?
    ensures Tokens(p, s) == [t] + Tokens(p, rest)
  {
    NoSpace(p, s);
  }

  lemma {:induction false} LexSpace(p: Platform, rest: string, ts: seq<Token>)
    requires p.space(' ') && LexesTo(p, rest, ts)
    ensures LexesTo(p, " " + rest, ts)
  {
    var s := " " + rest;
    assert s[1..] == rest;
    SkipOne(p, s);
    assert Next(p, s) == Next(p, rest);
    assert Tokens(p, s) == Tokens(p, rest);
  }

  lemma {:induction false} LexName(p: LawfulPlatform, name: string, rest: string, ts: seq<Token>)
    requires IsName(p, name) && LexesTo(p, rest, ts)
    requires rest == "" || !ExtendsName(p, rest[0])
    ensures LexesTo(p, name + rest, [Name(name)] + ts)
  {
    var s := name + rest;
    RunPrefix(name, rest, c => ExtendsName(p, c));
    assert s[0] == name[0] && !IsDigit(s[0]);
    assert s[..|name|] == name && s[|name|..] == rest;
    assert NumeralLength(s) == 0;
    TokensStep(p, s, Name(name), rest);
  }

  lemma {:induction false} DigitsPrefix(s: string, rest: string)
    requires Digits(s) == |s| ==> rest == "" || !IsDigit(rest[0])
    ensures Digits(s + rest) == Digits(s)
  {
    if s == "" { assert s + rest == rest; }
    else if IsDigit(s[0]) {
      assert (s + rest)[1..] == s[1..] + rest;
      DigitsPrefix(s[1..], rest);
    }
  }

  lemma {:induction false} MantissaPrefix(s: string, rest: string)
    requires MantissaLength(s) > 0
    requires rest == "" || (!IsDigit(rest[0]) && (rest[0] == '.' ==> Digits(s) < |s|))
    ensures MantissaLength(s + rest) == MantissaLength(s)
  {
    DigitsPrefix(s, rest);
    var whole := Digits(s);
    if whole == 0 {
      assert (s + rest)[1..] == s[1..] + rest;
      DigitsPrefix(s[1..], rest);
    } else if whole < |s| {
      assert (s + rest)[whole] == s[whole];
      assert (s + rest)[whole + 1..] == s[whole + 1..] + rest;
      DigitsPrefix(s[whole + 1..], rest);
    } else {
      assert rest != "" ==> (s + rest)[whole] == rest[0];
    }
  }

  lemma {:induction false} ExponentPrefix(s: string, rest: string)
    requires ExponentLength(s) == |s|
    requires rest == "" || (!IsDigit(rest[0]) && rest[0] != 'e' && rest[0] != 'E')
    ensures ExponentLength(s + rest) == |s|
  {
    if s == "" {
      assert s + rest == rest;
    } else {
      assert |s| > 1;
      var sign := if s[1] == '+' || s[1] == '-' then 1 else 0;
      assert (s + rest)[1 + sign..] == s[1 + sign..] + rest;
      DigitsPrefix(s[1 + sign..], rest);
    }
  }

  /** A numeral ends where it is followed by neither a digit nor `e`, nor by a
      dot when it is made of digits alone. */
  lemma {:induction false} NumeralPrefix(s: string, rest: string)
    requires IsNumeral(s)
    requires rest == "" || (!IsDigit(rest[0]) && rest[0] != 'e' && rest[0] != 'E' && (rest[0] == '.' ==> Digits(s) < |s|))
    ensures NumeralLength(s + rest) == |s|
  {
    var mantissa := MantissaLength(s);
    MantissaPrefix(s, rest);
    assert (s + rest)[mantissa..] == s[mantissa..] + rest;
    ExponentPrefix(s[mantissa..], rest);
  }

  lemma {:induction false} ScanNumeral(p: Platform, s: string, rest: string)
    requires IsNumeral(s)
    requires Stops(rest) || (rest != "" && rest[0] == '.' && Digits(s) < |s|)
    ensures Scan(p, s + rest) == (Numeral(s), rest) && (IsDigit(s[0]) || s[0] == '.')
  {
    NumeralPrefix(s, rest);
    assert (s + rest)[..|s|] == s && (s + rest)[|s|..] == rest;
  }

  lemma {:induction false} LexNumeral(p: LawfulPlatform, s: string, rest: string, ts: seq<Token>)
    requires IsNumeral(s) && LexesTo(p, rest, ts)
    requires Stops(rest) || (rest != "" && rest[0] == '.' && Digits(s) < |s|)
    ensures LexesTo(p, s + rest, [Numeral(s)] + ts)
  {
    ScanNumeral(p, s, rest);
    assert '.' in PUNCTUATION;
    assert (s + rest)[0] == s[0] && !p.space(s[0]);
    TokensStep(p, s + rest, Numeral(s), rest);
  }

  lemma {:induction false} UnitOfEscape(c: char, rest: string)
    ensures Unit('"', EscapeChar(c) + rest) == Some((c, |EscapeChar(c)|))
    ensures EscapeChar(c)[0] != '"'
  {
    if c < ' ' && EscapeChar(c)[1] == 'u' {
      var n := c as int;
      var s := EscapeChar(c) + rest;
      assert s[2..][0] == '0' && s[2..][1] == '0' && s[2..][2] == HexDigit(n / 16) && s[2..][3] == HexDigit(n % 16);
      assert n / 16 < 2 && HexValue(HexDigit(n / 16)) == Some(n / 16) && HexValue(HexDigit(n % 16)) == Some(n % 16);
      assert n == n / 16 * 16 + n % 16;
    }
  }

  lemma {:induction false} QuotedEscape(s: string, rest: string)
    ensures Quoted('"', Escape(s) + "\"" + rest) == Some((s, rest))
  {
    if s == "" {
      assert Escape(s) + "\"" + rest == "\"" + rest;
    } else {
      var tail := Escape(s[1..]) + "\"" + rest;
      var all := EscapeChar(s[0]) + tail;
      assert Escape(s) + "\"" + rest == all;
      UnitOfEscape(s[0], tail);
      assert all[|EscapeChar(s[0])|..] == tail;
      QuotedEscape(s[1..], rest);
      assert [s[0]] + s[1..] == s;
    }
  }

  lemma {:induction false} LexQuoted(p: LawfulPlatform, text: string, value: string, rest: string, ts: seq<Token>)
    requires LexesTo(p, rest, ts)
    requires text != "" && text[0] == '"' && Quoted('"', text[1..]) == Some((value, rest))
    ensures LexesTo(p, text, [Text(value)] + ts)
  {
    assert '"' in PUNCTUATION;
    TokensStep(p, text, Text(value), rest);
  }

  lemma {:induction false} QuoteRead(s: string, rest: string)
    ensures Quote(s) + rest != "" && (Quote(s) + rest)[0] == '"'
    ensures Quoted('"', (Quote(s) + rest)[1..]) == Some((s, rest))
  {
    assert (Quote(s) + rest)[1..] == Escape(s) + "\"" + rest;
    QuotedEscape(s, rest);
  }

  lemma {:induction false} LexText(p: LawfulPlatform, s: string, rest: string, ts: seq<Token>)
    requires LexesTo(p, rest, ts)
    ensures LexesTo(p, Quote(s) + rest, [Text(s)] + ts)
  {
    QuoteRead(s, rest);
    LexQuoted(p, Quote(s) + rest, s, rest, ts);
  }

  /** A one-character symbol that does not pair up with the next character. */
  lemma {:induction false} LexSingle(p: LawfulPlatform, c: char, rest: string, ts: seq<Token>)
    requires c in SINGLES && LexesTo(p, rest, ts)
    requires rest == "" || [c, rest[0]] !in PAIRS
    requires c == '.' ==> rest != "" && !IsDigit(rest[0])
    ensures LexesTo(p, [c] + rest, [Symbol([c])] + ts)
  {
    var s := [c] + rest;
    assert s[1..] == rest && s[..1] == [c];
    assert |s| > 1 ==> s[..2] == [c, rest[0]];
    PunctuationStarts(p, s);
    TokensStep(p, s, Symbol([c]), rest);
  }

  /** Punctuation starts no name, no numeral and no string literal. */
  lemma {:induction false} PunctuationStarts(p: LawfulPlatform, s: string)
    requires s != "" && s[0] in "+-*/%!<>=&|().,[]"
    requires s[0] == '.' ==> |s| > 1 && !IsDigit(s[1])
    ensures !p.space(s[0]) && s[0] != '"' && s[0] != '\''
    ensures NumeralLength(s) == 0 && NameLength(p, s) == 0
  {
    var c := s[0];
    assert c in PUNCTUATION && !IsDigit(c) && c != '$' && c != '_';
    assert Digits(s) == 0;
    assert |s| > 1 && !IsDigit(s[1]) ==> Digits(s[1..]) == 0;
    assert MantissaLength(s) == 0;
  }

  lemma {:induction false} LexPair(p: LawfulPlatform, pair: string, rest: string, ts: seq<Token>)
    requires pair in PAIRS && LexesTo(p, rest, ts)
    ensures LexesTo(p, pair + rest, [Symbol(pair)] + ts)
  {
    var s := pair + rest;
    assert s[2..] == rest && s[..2] == pair;
    PunctuationStarts(p, s);
    TokensStep(p, s, Symbol(pair), rest);
  }

  // ----- by induction on the tree

  lemma {:induction false} RenderStarts(p: LawfulPlatform, e: Expr)
    requires WellFormed(p, e) && AllFinite(p, e)
    ensures Render(p, e) != "" && Render(p, e)[0] != '='
  {
    match e
    case Member(owner, _, _) => RenderStarts(p, owner);
    case Call(callee, _) => RenderStarts(p, callee);
    case Identifier(name) => assert '=' in PUNCTUATION;
    case Literal(value) =>
      if value.Num? { assert IsNumeral(p.showNumber(value.number)); }
    case _ =>
  }

  lemma {:induction false} StopsName(p: LawfulPlatform, rest: string)
    requires (Stops(rest) || rest[0] == '.')
    ensures rest == "" || !ExtendsName(p, rest[0])
  {
    if rest != "" { assert rest[0] == ' ' || rest[0] in PUNCTUATION; }
  }

  lemma {:induction false} LexKeyword(p: LawfulPlatform, word: string, rest: string, ts: seq<Token>)
    requires word in KEYWORDS && (Stops(rest) || rest[0] == '.') && LexesTo(p, rest, ts)
    ensures LexesTo(p, word + rest, [Name(word)] + ts)
  {
    KeywordIsName(p, word);
    StopsName(p, rest);
    LexName(p, word, rest, ts);
  }

  lemma {:induction false} KeywordIsName(p: LawfulPlatform, word: string)
    requires word in KEYWORDS
    ensures IsName(p, word)
  {
    assert forall i :: 0 <= i < |word| ==> 'a' <= word[i] <= 'z';
  }

  lemma {:induction false} LexLiteral(p: LawfulPlatform, value: Value, rest: string, ts: seq<Token>)
    requires WellFormed(p, Literal(value)) && Printable(p, Literal(value)) && LexesTo(p, rest, ts)
    requires Stops(rest) || (rest[0] == '.' && !PrintsAsDigits(p, Literal(value)))
    ensures LexesTo(p, Render(p, Literal(value)) + rest, Toks(p, Literal(value)) + ts)
  {
    if value.Str? { LexText(p, value.text, rest, ts); }
    else if value.Num? { LexNumeral(p, p.showNumber(value.number), rest, ts); }
    else { LexKeyword(p, RenderLiteral(p, value), rest, ts); }
  }

  lemma {:induction false} LexOperator(p: LawfulPlatform, operator: string, rest: string, ts: seq<Token>)
    requires rest != "" && LexesTo(p, rest, ts)
    requires (operator in BINARY && rest[0] == ' ') || (operator in UNARY && rest[0] != '=')
    ensures LexesTo(p, operator + rest, [Symbol(operator)] + ts)
  {
    if operator in PAIRS { LexPair(p, operator, rest, ts); }
    else {
      assert operator == [operator[0]] && operator[0] in SINGLES;
      LexSingle(p, operator[0], rest, ts);
    }
  }

  // ----- printed text and its tokens, cut after their first pieces

  lemma {:induction false} TextList(p: Platform, e: Expr, rest: string)
    requires e.ListOf?
    ensures Render(p, e) + rest == ['['] + (RenderAll(p, e.items) + ([']'] + rest))
  {
  }

  lemma {:induction false} ToksList(p: Platform, e: Expr, ts: seq<Token>)
    requires e.ListOf?
    ensures Toks(p, e) + ts == [Symbol("[")] + (ToksAll(p, e.items) + ([Symbol("]")] + ts))
  {
  }

  lemma {:induction false} TextUnary(p: Platform, e: Expr, rest: string)
    requires e.Unary?
    ensures Render(p, e) + rest == "(" + (e.operator + (Render(p, e.operand) + (")" + rest)))
  {
  }

  lemma {:induction false} ToksUnary(p: Platform, e: Expr, ts: seq<Token>)
    requires e.Unary?
    ensures Toks(p, e) + ts == [Symbol("(")] + ([Symbol(e.operator)] + (Toks(p, e.operand) + ([Symbol(")")] + ts)))
  {
  }

  lemma {:induction false} TextBinary(p: Platform, e: Expr, rest: string)
    requires e.Binary?
    ensures Render(p, e) + rest == "(" + (Render(p, e.left) + (" " + (e.operator + (" " + (Render(p, e.right) + (")" + rest))))))
  {
  }

  lemma {:induction false} ToksBinary(p: Platform, e: Expr, ts: seq<Token>)
    requires e.Binary?
    ensures Toks(p, e) + ts == [Symbol("(")] + (Toks(p, e.left) + ([Symbol(e.operator)] + (Toks(p, e.right) + ([Symbol(")")] + ts))))
  {
  }

  lemma {:induction false} TextCall(p: Platform, e: Expr, rest: string)
    requires e.Call?
    ensures Render(p, e) + rest == Render(p, e.callee) + (['('] + (RenderAll(p, e.args) + ([')'] + rest)))
  {
  }

  lemma {:induction false} ToksCall(p: Platform, e: Expr, ts: seq<Token>)
    requires e.Call?
    ensures Toks(p, e) + ts == Toks(p, e.callee) + ([Symbol("(")] + (ToksAll(p, e.args) + ([Symbol(")")] + ts)))
  {
  }

  lemma {:induction false} TextIndex(p: Platform, e: Expr, rest: string)
    requires e.Member? && e.computed
    ensures Render(p, e) + rest == Render(p, e.owner) + (['['] + (Render(p, e.key) + ([']'] + rest)))
  {
  }

  lemma {:induction false} ToksIndex(p: Platform, e: Expr, ts: seq<Token>)
    requires e.Member? && e.computed
    ensures Toks(p, e) + ts == Toks(p, e.owner) + ([Symbol("[")] + (Toks(p, e.key) + ([Symbol("]")] + ts)))
  {
  }

  lemma {:induction false} TextDot(p: Platform, e: Expr, rest: string)
    requires e.Member? && !e.computed && WellFormed(p, e)
    ensures Render(p, e) + rest == Render(p, e.owner) + ("." + (e.key.value.text + rest))
  {
  }

  lemma {:induction false} ToksDot(p: Platform, e: Expr, ts: seq<Token>)
    requires e.Member? && !e.computed && WellFormed(p, e)
    ensures Toks(p, e) + ts == Toks(p, e.owner) + ([Symbol(".")] + ([Name(e.key.value.text)] + ts))
  {
  }

  lemma {:induction false} TextItems(p: Platform, items: seq<Expr>, rest: string)
    requires |items| > 1
    ensures RenderAll(p, items) + rest == Render(p, items[0]) + ("," + (" " + (RenderAll(p, items[1..]) + rest)))
  {
  }

  lemma {:induction false} ToksItems(p: Platform, items: seq<Expr>, ts: seq<Token>)
    requires |items| > 1
    ensures ToksAll(p, items) + ts == Toks(p, items[0]) + ([Symbol(",")] + (ToksAll(p, items[1..]) + ts))
  {
  }

  // ----- the induction

  /** The tokens of printed text are the tokens of the tree, whatever follows. */
  lemma {:induction false} LexRender(p: LawfulPlatform, e: Expr, rest: string, ts: seq<Token>)
    requires WellFormed(p, e) && Printable(p, e) && LexesTo(p, rest, ts)
    requires Stops(rest) || (rest[0] == '.' && !PrintsAsDigits(p, e))
    ensures LexesTo(p, Render(p, e) + rest, Toks(p, e) + ts)
    decreases e, 0
  {
    match e
    case Literal(value) => LexLiteral(p, value, rest, ts);
    case Identifier(name) =>
      StopsName(p, rest);
      LexName(p, name, rest, ts);
    case ListOf(items) =>
      LexBracketed(p, e, items, '[', ']', rest, ts);
      TextList(p, e, rest);
      ToksList(p, e, ts);
    case Unary(_, _) => LexUnary(p, e, rest, ts);
    case Binary(_, _, _) => LexBinary(p, e, rest, ts);
    case Call(callee, args) =>
      LexBracketed(p, e, args, '(', ')', rest, ts);
      var t1 := ['('] + (RenderAll(p, args) + ([')'] + rest));
      LexRender(p, callee, t1, [Symbol("(")] + (ToksAll(p, args) + ([Symbol(")")] + ts)));
      TextCall(p, e, rest);
      ToksCall(p, e, ts);
    case Member(owner, key, computed) =>
      if !computed { LexDotMember(p, e, rest, ts); }
      else {
        LexBracketed(p, e, [key], '[', ']', rest, ts);
        var t1 := ['['] + (Render(p, key) + ([']'] + rest));
        LexRender(p, owner, t1, [Symbol("[")] + (Toks(p, key) + ([Symbol("]")] + ts)));
        TextIndex(p, e, rest);
        ToksIndex(p, e, ts);
      }
  }

  lemma {:induction false} LexDotMember(p: LawfulPlatform, e: Expr, rest: string, ts: seq<Token>)
    requires WellFormed(p, e) && Printable(p, e) && e.Member? && !e.computed && LexesTo(p, rest, ts)
    requires Stops(rest) || rest[0] == '.'
    ensures LexesTo(p, Render(p, e) + rest, Toks(p, e) + ts)
    decreases e, -1
  {
    var name := e.key.value.text;
    StopsName(p, rest);
    LexName(p, name, rest, ts);
    LexSingle(p, '.', name + rest, [Name(name)] + ts);
    LexRender(p, e.owner, "." + (name + rest), [Symbol(".")] + ([Name(name)] + ts));
    TextDot(p, e, rest);
    ToksDot(p, e, ts);
  }

  lemma {:induction false} LexUnary(p: LawfulPlatform, e: Expr, rest: string, ts: seq<Token>)
    requires WellFormed(p, e) && Printable(p, e) && e.Unary? && LexesTo(p, rest, ts)
    ensures LexesTo(p, Render(p, e) + rest, Toks(p, e) + ts)
    decreases e, -1
  {
    var t2, s2 := ")" + rest, [Symbol(")")] + ts;
    LexSingle(p, ')', rest, ts);
    LexRender(p, e.operand, t2, s2);
    PrintableFinite(p, e.operand);
    RenderStarts(p, e.operand);
    LexOperator(p, e.operator, Render(p, e.operand) + t2, Toks(p, e.operand) + s2);
    LexSingle(p, '(', e.operator + (Render(p, e.operand) + t2), [Symbol(e.operator)] + (Toks(p, e.operand) + s2));
    TextUnary(p, e, rest);
    ToksUnary(p, e, ts);
  }

  lemma {:induction false} LexBinary(p: LawfulPlatform, e: Expr, rest: string, ts: seq<Token>)
    requires WellFormed(p, e) && Printable(p, e) && e.Binary? && LexesTo(p, rest, ts)
    ensures LexesTo(p, Render(p, e) + rest, Toks(p, e) + ts)
    decreases e, -1
  {
    var t5, s5 := ")" + rest, [Symbol(")")] + ts;
    LexSingle(p, ')', rest, ts);
    var t4, s4 := Render(p, e.right) + t5, Toks(p, e.right) + s5;
    LexRender(p, e.right, t5, s5);
    LexSpace(p, t4, s4);
    var t2, s2 := e.operator + (" " + t4), [Symbol(e.operator)] + s4;
    LexOperator(p, e.operator, " " + t4, s4);
    LexSpace(p, t2, s2);
    LexRender(p, e.left, " " + t2, s2);
    LexSingle(p, '(', Render(p, e.left) + (" " + t2), Toks(p, e.left) + s2);
    TextBinary(p, e, rest);
    ToksBinary(p, e, ts);
  }

  /** The part of `parent` from an opening bracket on. */
  lemma {:induction false} LexBracketed(p: LawfulPlatform, parent: Expr, items: seq<Expr>, open: char, close: char, rest: string, ts: seq<Token>)
    requires LexesTo(p, rest, ts) && open in "([" && close in ")]"
    requires forall i :: 0 <= i < |items| ==> items[i] < parent && WellFormed(p, items[i]) && Printable(p, items[i])
    ensures LexesTo(p, [open] + (RenderAll(p, items) + ([close] + rest)),
                    [Symbol([open])] + (ToksAll(p, items) + ([Symbol([close])] + ts)))
    decreases parent, -1, |items| + 1
  {
    LexSingle(p, close, rest, ts);
    LexRenderAll(p, parent, items, [close] + rest, [Symbol([close])] + ts);
    LexSingle(p, open, RenderAll(p, items) + ([close] + rest), ToksAll(p, items) + ([Symbol([close])] + ts));
  }

  lemma {:induction false} LexRenderAll(p: LawfulPlatform, parent: Expr, items: seq<Expr>, rest: string, ts: seq<Token>)
    requires rest != "" && rest[0] in ")]" && LexesTo(p, rest, ts)
    requires forall i :: 0 <= i < |items| ==> items[i] < parent && WellFormed(p, items[i]) && Printable(p, items[i])
    ensures LexesTo(p, RenderAll(p, items) + rest, ToksAll(p, items) + ts)
    decreases parent, -1, |items|
  {
    if items == [] {
      assert RenderAll(p, items) + rest == rest;
      assert ToksAll(p, items) + ts == ts;
    } else if |items| == 1 {
      LexRender(p, items[0], rest, ts);
    } else {
      var t2, s2 := RenderAll(p, items[1..]) + rest, ToksAll(p, items[1..]) + ts;
      LexRenderAll(p, parent, items[1..], rest, ts);
      LexSpace(p, t2, s2);
      LexSingle(p, ',', " " + t2, s2);
      LexRender(p, items[0], "," + (" " + t2), [Symbol(",")] + s2);
      TextItems(p, items, rest);
      ToksItems(p, items, ts);
    }
  }
}
