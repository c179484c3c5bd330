/** The parser and the printer are inverse to each other. */
module RoundTrip {
  import opened Platforms
  import opened Syntax
  import opened Lexing
  import opened Parsing
  import opened ParseRules
  import opened Printing
  import opened LexPrinted
  import opened ParsePrinted

  // ----- what the parser can produce

  /** What the lexer promises of its tokens; `ok` constrains the names. */
  ghost predicate Genuine(p: Platform, t: Token, ok: string -> bool) {
    (t.Name? ==> IsName(p, t.text) && ok(t.text)) && (t.Numeral? ==> IsNumeral(t.text))
  }

  ghost predicate GenuineAll(p: Platform, ts: seq<Token>, ok: string -> bool) {
    forall i :: 0 <= i < |ts| ==> Genuine(p, ts[i], ok)
  }

  predicate Identifiers(e: Expr, ok: string -> bool) {
    match e
    case Literal(_) => true
    case Identifier(name) => ok(name)
    case ListOf(items) => forall i :: 0 <= i < |items| ==> Identifiers(items[i], ok)
    case Unary(_, operand) => Identifiers(operand, ok)
    case Binary(_, left, right) => Identifiers(left, ok) && Identifiers(right, ok)
    case Member(owner, key, _) => Identifiers(owner, ok) && Identifiers(key, ok)
    case Call(callee, args) => Identifiers(callee, ok) && forall i :: 0 <= i < |args| ==> Identifiers(args[i], ok)
  }

  ghost predicate Produced(p: Platform, e: Expr, ok: string -> bool) {
    WellFormed(p, e) && Identifiers(e, ok)
  }

  ghost predicate ProducedAll(p: Platform, es: seq<Expr>, ok: string -> bool) {
    forall i :: 0 <= i < |es| ==> Produced(p, es[i], ok)
  }

  lemma {:induction false} ExpressionProduces(p: Platform, ts: seq<Token>, levels: nat, minimum: nat, ok: string -> bool)
    requires GenuineAll(p, ts, ok)
    ensures var r := Expression(p, ts, levels, minimum); r.Parsed? ==> Produced(p, r.value, ok) && GenuineAll(p, r.rest, ok)
    decreases |ts|, 3
  {
    if levels > 0 {
      PrimaryProduces(p, ts, levels - 1, ok);
      var first := Primary(p, ts, levels - 1);
      if first.Parsed? { SuffixesProduce(p, first.value, first.rest, levels - 1, minimum, ok); }
    }
  }

  lemma {:induction false} PrimaryProduces(p: Platform, ts: seq<Token>, levels: nat, ok: string -> bool)
    requires GenuineAll(p, ts, ok)
    ensures var r := Primary(p, ts, levels); r.Parsed? ==> Produced(p, r.value, ok) && GenuineAll(p, r.rest, ok)
    decreases |ts|, 2
  {
    if Advance(ts).Some? {
      var after := Advance(ts).value;
      assert GenuineAll(p, after, ok);
      if ts[0] == Symbol("-") || ts[0] == Symbol("!") {
        ExpressionProduces(p, after, levels, 7, ok);
      } else if ts[0] == Symbol("(") {
        ExpressionProduces(p, after, levels, 0, ok);
      } else if ts[0] == Symbol("[") {
        ItemsProduce(p, after, levels, "]", ok);
      } else {
        assert Genuine(p, ts[0], ok);
      }
    }
  }

  lemma {:induction false} ItemsProduce(p: Platform, ts: seq<Token>, levels: nat, close: string, ok: string -> bool)
    requires GenuineAll(p, ts, ok)
    ensures var r := Items(p, ts, levels, close); r.Parsed? ==> ProducedAll(p, r.value, ok) && GenuineAll(p, r.rest, ok)
    decreases |ts|, 5
  {
    if ts == [] || ts[0] != Symbol(close) { MoreItemsProduce(p, ts, levels, close, ok); }
  }

  lemma {:induction false} MoreItemsProduce(p: Platform, ts: seq<Token>, levels: nat, close: string, ok: string -> bool)
    requires GenuineAll(p, ts, ok)
    ensures var r := MoreItems(p, ts, levels, close); r.Parsed? ==> ProducedAll(p, r.value, ok) && GenuineAll(p, r.rest, ok)
    decreases |ts|, 4
  {
    ExpressionProduces(p, ts, levels, 0, ok);
    var item := Expression(p, ts, levels, 0);
    if item.Parsed? && item.rest[0] == Symbol(",") && Advance(item.rest).Some? {
      MoreItemsProduce(p, Advance(item.rest).value, levels, close, ok);
    }
  }

  lemma {:induction false} SuffixProduces(p: Platform, node: Expr, ts: seq<Token>, levels: nat, minimum: nat, ok: string -> bool)
    requires GenuineAll(p, ts, ok) && Produced(p, node, ok)
    ensures var r := Suffix(p, node, ts, levels, minimum); r.Grown? ==> Produced(p, r.node, ok) && GenuineAll(p, r.rest, ok)
    decreases |ts|, 0
  {
    if Advance(ts).Some? {
      var after := Advance(ts).value;
      assert GenuineAll(p, after, ok);
      if ts[0] == Symbol(".") {
        assert Genuine(p, after[0], ok);
        assert after[0].Name? ==> Produced(p, Member(node, Literal(Str(after[0].text)), false), ok);
      } else if ts[0] == Symbol("[") || ts[0] == Symbol("(") {
        BracketProduces(p, node, ts, levels, minimum, ok);
      } else {
        InfixProduces(p, node, ts, levels, minimum, ok);
      }
    }
  }

  lemma {:induction false} BracketProduces(p: Platform, node: Expr, ts: seq<Token>, levels: nat, minimum: nat, ok: string -> bool)
    requires GenuineAll(p, ts, ok) && Produced(p, node, ok) && Advance(ts).Some?
    requires ts[0] in [Symbol("["), Symbol("(")]
    ensures var r := Suffix(p, node, ts, levels, minimum); r.Grown? ==> Produced(p, r.node, ok) && GenuineAll(p, r.rest, ok)
    decreases |ts|, 0, 0
  {
    var after := Advance(ts).value;
    assert GenuineAll(p, after, ok);
    if ts[0] == Symbol("[") {
      ExpressionProduces(p, after, levels, 0, ok);
      var key := Expression(p, after, levels, 0);
      if key.Parsed? { assert Produced(p, Member(node, key.value, true), ok); }
    } else {
      ItemsProduce(p, after, levels, ")", ok);
      var args := Items(p, after, levels, ")");
      if args.Parsed? { assert Produced(p, Call(node, args.value), ok); }
    }
  }

  lemma {:induction false} InfixProduces(p: Platform, node: Expr, ts: seq<Token>, levels: nat, minimum: nat, ok: string -> bool)
    requires GenuineAll(p, ts, ok) && Produced(p, node, ok) && Advance(ts).Some?
    requires ts[0] !in [Symbol("."), Symbol("["), Symbol("(")]
    ensures var r := Suffix(p, node, ts, levels, minimum); r.Grown? ==> Produced(p, r.node, ok) && GenuineAll(p, r.rest, ok)
    decreases |ts|, 0, 0
  {
    var strength := TokenStrength(ts[0]);
    if strength >= minimum {
      var after := Advance(ts).value;
      assert GenuineAll(p, after, ok);
      ExpressionProduces(p, after, levels, strength + 1, ok);
      var right := Expression(p, after, levels, strength + 1);
      if right.Parsed? {
        assert ts[0].text in BINARY;
        assert Produced(p, Binary(ts[0].text, node, right.value), ok);
      }
    }
  }

  lemma {:induction false} SuffixesProduce(p: Platform, node: Expr, ts: seq<Token>, levels: nat, minimum: nat, ok: string -> bool)
    requires GenuineAll(p, ts, ok) && Produced(p, node, ok)
    ensures var r := Suffixes(p, node, ts, levels, minimum); r.Parsed? ==> Produced(p, r.value, ok) && GenuineAll(p, r.rest, ok)
    decreases |ts|, 1
  {
    SuffixProduces(p, node, ts, levels, minimum, ok);
    var r := Suffix(p, node, ts, levels, minimum);
    if r.Grown? { SuffixesProduce(p, r.node, r.rest, levels, minimum, ok); }
  }

  // ----- the tokens of a text

  predicate StandsAt(word: string, s: string, i: nat) {
    i + |word| <= |s| && s[i..i + |word|] == word
  }

  ghost predicate Inside(word: string, s: string) {
    exists i: nat :: StandsAt(word, s, i)
  }

  ghost predicate AllInside(s: string, ok: string -> bool) {
    forall word {:trigger Inside(word, s)} :: Inside(word, s) ==> ok(word)
  }

  lemma {:induction false} InsideSuffix(s: string, k: nat, ok: string -> bool)
    requires k <= |s| && AllInside(s, ok)
    ensures AllInside(s[k..], ok)
  {
    forall word | Inside(word, s[k..])
      ensures ok(word)
    {
      var i: nat :| StandsAt(word, s[k..], i);
      assert s[k + i..k + i + |word|] == word;
      assert StandsAt(word, s, k + i);
      assert Inside(word, s);
    }
  }

  lemma {:induction false} InsidePrefix(s: string, n: nat, ok: string -> bool)
    requires n <= |s| && AllInside(s, ok)
    ensures ok(s[..n])
  {
    assert StandsAt(s[..n], s, 0);
    assert Inside(s[..n], s);
  }

  lemma {:induction false} ScanGenuine(p: Platform, s: string, ok: string -> bool)
    requires AllInside(s, ok)
    ensures Genuine(p, Scan(p, s).0, ok)
  {
    var t := Scan(p, s).0;
    if t.Name? {
      InsidePrefix(s, NameLength(p, s), ok);
    } else if t.Numeral? {
      NumeralStands(s);
    }
  }

  lemma {:induction false} Cut(s: string, n: nat, i: nat)
    requires i <= n <= |s|
    ensures s[..n][i..] == s[i..][..n - i]
  {
  }

  lemma {:induction false} RunPrefixSame(s: string, n: nat, ok: char -> bool)
    requires n <= |s|
    ensures Run(s[..n], ok) == if Run(s, ok) <= n then Run(s, ok) else n
  {
    if n > 0 && ok(s[0]) {
      Cut(s, n, 1);
      RunPrefixSame(s[1..], n - 1, ok);
    }
  }

  /** A lexed numeral is a numeral by itself. */
  lemma {:induction false} NumeralStands(s: string)
    requires NumeralLength(s) > 0
    ensures IsNumeral(s[..NumeralLength(s)])
  {
    var mantissa, n := MantissaLength(s), NumeralLength(s);
    MantissaStands(s, n);
    assert s[..n][mantissa..] == s[mantissa..][..n - mantissa];
    ExponentStands(s[mantissa..]);
  }

  lemma {:induction false} MantissaStands(s: string, n: nat)
    requires 0 < MantissaLength(s) <= n <= |s|
    requires n > MantissaLength(s) ==> s[MantissaLength(s)] == 'e' || s[MantissaLength(s)] == 'E'
    ensures MantissaLength(s[..n]) == MantissaLength(s)
  {
    if Digits(s) > 0 { WholeStands(s, n); }
    else {
      RunPrefixSame(s, n, IsDigit);
      Cut(s, n, 1);
      RunPrefixSame(s[1..], n - 1, IsDigit);
    }
  }

  lemma {:induction false} WholeStands(s: string, n: nat)
    requires 0 < Digits(s) && MantissaLength(s) <= n <= |s|
    requires n > MantissaLength(s) ==> s[MantissaLength(s)] == 'e' || s[MantissaLength(s)] == 'E'
    ensures MantissaLength(s[..n]) == MantissaLength(s)
  {
    var whole := Digits(s);
    RunPrefixSame(s, n, IsDigit);
    if whole < |s| && s[whole] == '.' {
      Cut(s, n, whole + 1);
      RunPrefixSame(s[whole + 1..], n - whole - 1, IsDigit);
    }
  }

  lemma {:induction false} ExponentStands(s: string)
    ensures ExponentLength(s[..ExponentLength(s)]) == ExponentLength(s)
  {
    var n := ExponentLength(s);
    if n > 0 {
      var sign := if |s| > 1 && (s[1] == '+' || s[1] == '-') then 1 else 0;
      Cut(s, n, 1 + sign);
      RunPrefixSame(s[1 + sign..], n - 1 - sign, IsDigit);
    }
  }

  lemma {:induction false} ScanInside(p: Platform, s: string, ok: string -> bool)
    requires AllInside(s, ok)
    ensures AllInside(Scan(p, s).1, ok)
  {
    ScanSuffix(p, s);
    InsideSuffix(s, |s| - |Scan(p, s).1|, ok);
  }

  lemma {:induction false} GenuineMore(p: Platform, t: Token, ts: seq<Token>, ok: string -> bool)
    requires Genuine(p, t, ok) && GenuineAll(p, ts, ok)
    ensures GenuineAll(p, [t] + ts, ok)
  {
  }

  lemma {:induction false} TokensGenuine(p: Platform, s: string, ok: string -> bool)
    requires AllInside(s, ok)
    ensures GenuineAll(p, Tokens(p, s), ok)
    decreases |s|
  {
    var left := SkipSpaces(p, s);
    InsideSuffix(s, Run(s, p.space), ok);
    ScanGenuine(p, left, ok);
    var (t, rest) := Scan(p, left);
    if !t.End? && !t.Stray? {
      ScanInside(p, left, ok);
      TokensGenuine(p, rest, ok);
      GenuineMore(p, t, Tokens(p, rest), ok);
    }
  }

  predicate EndOf(rest: string, s: string) { |rest| <= |s| && rest == s[|s| - |rest|..] }

  lemma {:induction false} EndFrom(s: string, k: nat)
    requires k <= |s|
    ensures EndOf(s[k..], s)
  {
  }

  lemma {:induction false} EndOfEnd(rest: string, s: string, k: nat)
    requires k <= |s| && EndOf(rest, s[k..])
    ensures EndOf(rest, s)
  {
  }

  lemma {:induction false} QuotedSuffix(quote: char, s: string)
    requires Quoted(quote, s).Some?
    ensures EndOf(Quoted(quote, s).value.1, s)
    decreases |s|
  {
    if s != "" && s[0] == quote {
      EndFrom(s, 1);
    } else {
      var n := Unit(quote, s).value.1;
      QuotedSuffix(quote, s[n..]);
      EndOfEnd(Quoted(quote, s).value.1, s, n);
    }
  }

  lemma {:induction false} ScanSuffix(p: Platform, s: string)
    ensures EndOf(Scan(p, s).1, s)
  {
    EndFrom(s, 0);
    if s != "" && (s[0] == '"' || s[0] == '\'') {
      if Quoted(s[0], s[1..]).Some? {
        QuotedSuffix(s[0], s[1..]);
        EndOfEnd(Quoted(s[0], s[1..]).value.1, s, 1);
      }
    } else if NumeralLength(s) > 0 { EndFrom(s, NumeralLength(s)); }
    else if NameLength(p, s) > 0 { EndFrom(s, NameLength(p, s)); }
    else if |s| > 1 && s[..2] in PAIRS { EndFrom(s, 2); }
    else if s != "" { EndFrom(s, 1); }
  }

  // ----- main results

  /** Whatever the parser accepts is well formed: names are names, operators are
      operators, numbers come from numerals, and dot keys are names. */
  lemma {:induction false} ParsedIsWellFormed(p: Platform, source: string, ok: string -> bool)
    requires AllInside(source, ok) && ok("null")
    ensures var r := ParseText(p, source); r.Some? ==> WellFormed(p, r.value) && Identifiers(r.value, ok)
  {
    TokensGenuine(p, source, ok);
    ExpressionProduces(p, Tokens(p, source), MAX_NESTING, 0, ok);
  }

  lemma {:induction false} EndOfText(p: Platform)
    ensures LexesTo(p, "", [End])
  {
  }

  /** Printing and parsing again gives back the tree, exactly when its
      parentheses stay within the parser's nesting limit. */
  lemma {:induction false} PrintedParses(p: LawfulPlatform, e: Expr)
    requires WellFormed(p, e) && Printable(p, e)
    ensures ParseText(p, Render(p, e)) == if Nesting(e) <= MAX_NESTING then Some(e) else None
  {
    EndOfText(p);
    LexRender(p, e, "", [End]);
    assert Render(p, e) + "" == Render(p, e);
    var ts := Toks(p, e) + [End];
    assert Tokens(p, Render(p, e)) == ts;
    FirstToken(p, e);
    ParseOperand(p, e, [End], MAX_NESTING, 0);
    assert Expression(p, ts, MAX_NESTING, 0) == Read(e, [End], MAX_NESTING >= Nesting(e));
  }

  // ----- a dot after digits

  /** Digits take a dot that follows them into the number, and an exponent after it. */
  lemma {:induction false} DotJoins(digits: string, name: string)
    requires digits != "" && Digits(digits) == |digits| && (name == "" || !IsDigit(name[0]))
    ensures NumeralLength(digits + ("." + name)) == |digits| + 1 + ExponentLength(name)
  {
    var text := digits + ("." + name);
    DigitsPrefix(digits, "." + name);
    assert text[|digits|] == '.' && text[|digits| + 1..] == name;
    assert Digits(name) == 0;
  }

  /** What begins with a character of a name is neither a symbol nor a string. */
  lemma {:induction false} NameCharacter(p: LawfulPlatform, s: string)
    requires s == "" || ExtendsName(p, s[0])
    ensures var t := Scan(p, s).0; !t.Symbol? && !t.Text?
    ensures s != "" && StartsName(p, s[0]) ==> Scan(p, s).0.Name?
  {
    if s != "" {
      assert s[0] !in PUNCTUATION;
      NoSymbol(p, s);
      if StartsName(p, s[0]) { NameIsNoNumeral(p, s); }
    }
  }

  lemma {:induction false} NoSymbol(p: Platform, s: string)
    requires s != "" && s[0] !in PUNCTUATION
    ensures var t := Scan(p, s).0; !t.Symbol? && !t.Text?
  {
    assert s[0] != '"' && s[0] != '\'' && s[0] !in SINGLES;
    assert |s| > 1 ==> s[..2][0] == s[0];
  }

  lemma {:induction false} NameIsNoNumeral(p: LawfulPlatform, s: string)
    requires s != "" && StartsName(p, s[0])
    ensures NumeralLength(s) == 0 && NameLength(p, s) > 0
  {
    assert !IsDigit(s[0]) && s[0] != '.';
  }

  lemma {:induction false} FirstScanned(p: Platform, s: string)
    ensures Tokens(p, s)[0] == Scan(p, SkipSpaces(p, s)).0
  {
  }

  lemma {:induction false} NameCharacters(p: LawfulPlatform, s: string)
    requires forall i :: 0 <= i < |s| ==> ExtendsName(p, s[i])
    ensures var t := Tokens(p, s)[0]; !t.Symbol? && !t.Text?
    ensures s != "" && StartsName(p, s[0]) ==> Tokens(p, s)[0].Name?
  {
    var left := SkipSpaces(p, s);
    NameCharacter(p, left);
    FirstScanned(p, s);
    if s != "" && StartsName(p, s[0]) { NoSpace(p, s); }
  }

  /** A number that is followed by another operand is not a whole expression. */
  lemma {:induction false} NumeralAlone(p: Platform, text: string, ts: seq<Token>, levels: nat)
    requires ts != [] && !ts[0].Symbol? && levels > 0
    ensures Whole(Expression(p, [Numeral(text)] + ts, levels, 0))
         == if ts[0].End? then Some(Literal(Num(p.toNumber(text)))) else None
  {
    var all := [Numeral(text)] + ts;
    assert all[1..] == ts;
    var node := Literal(Num(p.toNumber(text)));
    assert Suffix(p, node, ts, levels - 1, 0) == Settled;
    assert Suffixes(p, node, ts, levels - 1, 0) == Parsed(node, ts);
    assert Primary(p, all, levels - 1) == if ts[0].Stray? then Failed else Parsed(node, ts);
  }

  lemma {:induction false} SplitAfter(digits: string, name: string, k: nat)
    requires k <= |name|
    ensures (digits + ("." + name))[|digits| + 1 + k..] == name[k..]
  {
  }

  lemma {:induction false} ScanNumeral(p: Platform, s: string, k: nat, left: string)
    requires s != "" && IsDigit(s[0]) && k == NumeralLength(s) && k > 0 && left == s[k..]
    ensures Scan(p, s) == (Numeral(s[..k]), left)
  {
  }

  /** The tokens are one number and those of what is left of the name. */
  lemma {:induction false} LexDigitsDot(p: LawfulPlatform, digits: string, name: string, text: string, left: string)
    requires digits != "" && Digits(digits) == |digits| && IsDigit(digits[0]) && IsName(p, name)
    requires text == digits + ("." + name) && left == name[ExponentLength(name)..]
    ensures Tokens(p, text) == [Numeral(text[..NumeralLength(text)])] + Tokens(p, left)
  {
    DotJoins(digits, name);
    SplitAfter(digits, name, ExponentLength(name));
    assert text[0] == digits[0];
    var k := NumeralLength(text);
    ScanNumeral(p, text, k, left);
    TokensStep(p, text, Numeral(text[..k]), left);
  }

  lemma {:induction false} ParseDigitsDot(p: LawfulPlatform, digits: string, name: string, text: string)
    requires digits != "" && Digits(digits) == |digits| && IsDigit(digits[0]) && IsName(p, name)
    requires text == digits + ("." + name)
    ensures var r := ParseText(p, text); r.None? || r.value.Literal?
    ensures ExponentLength(name) == 0 ==> ParseText(p, text).None?
  {
    var left := name[ExponentLength(name)..];
    LexDigitsDot(p, digits, name, text, left);
    NameCharacters(p, left);
    NumeralAlone(p, text[..NumeralLength(text)], Tokens(p, left), MAX_NESTING);
  }

  /** `.name` after a number that prints as digits: the text never parses to the
      tree again. It is an error, or one number when the name reads as an exponent. */
  lemma {:induction false} DigitsDotSlips(p: LawfulPlatform, n: Number, name: string, e: Expr)
    requires p.finite(n) && IsLexedNumber(p, n) && PrintsAsDigits(p, Literal(Num(n))) && IsName(p, name)
    requires e == Member(Literal(Num(n)), Literal(Str(name)), false)
    ensures WellFormed(p, e) && !Printable(p, e)
    ensures var r := ParseText(p, Render(p, e)); r.None? || r.value.Literal?
    ensures ExponentLength(name) == 0 ==> ParseText(p, Render(p, e)).None?
  {
    ShownDigits(p, n);
    TextDot(p, e, "");
    assert Render(p, e) + "" == Render(p, e) && name + "" == name;
    ParseDigitsDot(p, p.showNumber(n), name, Render(p, e));
  }

  lemma {:induction false} ShownDigits(p: LawfulPlatform, n: Number)
    requires p.finite(n) && IsLexedNumber(p, n) && PrintsAsDigits(p, Literal(Num(n)))
    ensures var digits := p.showNumber(n); digits != "" && Digits(digits) == |digits| && IsDigit(digits[0])
  {
    var text :| IsNumeral(text) && n == p.toNumber(text);
  }
}
