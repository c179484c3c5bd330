/** The hand-written lexer, as functions on the text that is left. */
module Lexing {
  import opened Platforms

  /** `Stray` stands for a thrown lexical error. */
  datatype Token = Name(text: string) | Numeral(text: string) | Text(value: string) | Symbol(text: string) | End | Stray

  const SINGLES := "+-*/%!<>().,[]"
  const PAIRS := ["&&", "||", "==", "!=", "<=", ">="]

  predicate IsDigit(c: char) { '0' <= c <= '9' }

  predicate StartsName(p: Platform, c: char) { c == '$' || c == '_' || p.letter(c) }

  predicate ExtendsName(p: Platform, c: char) { StartsName(p, c) || p.mark(c) }

  /** The whole of `s` is one identifier. */
  predicate IsName(p: Platform, s: string) {
    s != "" && StartsName(p, s[0]) && forall i :: 0 <= i < |s| ==> ExtendsName(p, s[i])
  }

  /** The length of the longest prefix whose characters all satisfy `ok`. */
  function Run(s: string, ok: char -> bool): (n: nat)
    ensures n <= |s|
    ensures forall i :: 0 <= i < n ==> ok(s[i])
    ensures n < |s| ==> !ok(s[n])
  {
    if s == "" || !ok(s[0]) then 0 else 1 + Run(s[1..], ok)
  }

  function Digits(s: string): (n: nat)
    ensures n <= |s|
  {
    Run(s, IsDigit)
  }

  function SkipSpaces(p: Platform, s: string): (rest: string)
    ensures |rest| <= |s|
  {
    s[Run(s, p.space)..]
  }

  function NameLength(p: Platform, s: string): (n: nat)
    ensures n <= |s|
  {
    if s != "" && StartsName(p, s[0]) then Run(s, c => ExtendsName(p, c)) else 0
  }

  /** `\d+(\.\d*)?` or `\.\d+` at the start of `s`. */
  function MantissaLength(s: string): (n: nat)
    ensures n <= |s|
  {
    var whole := Digits(s);
    if whole > 0 then
      if whole < |s| && s[whole] == '.' then whole + 1 + Digits(s[whole + 1..]) else whole
    else if s != "" && s[0] == '.' && Digits(s[1..]) > 0 then 1 + Digits(s[1..])
    else 0
  }

  /** `[eE][+-]?\d+` at the start of `s`, or nothing. */
  function ExponentLength(s: string): (n: nat)
    ensures n <= |s|
  {
    if s == "" || (s[0] != 'e' && s[0] != 'E') then 0
    else
      var sign := if |s| > 1 && (s[1] == '+' || s[1] == '-') then 1 else 0;
      var digits := Digits(s[1 + sign..]);
      if digits == 0 then 0 else 1 + sign + digits
  }

  function NumeralLength(s: string): (n: nat)
    ensures n <= |s|
  {
    var mantissa := MantissaLength(s);
    if mantissa == 0 then 0 else mantissa + ExponentLength(s[mantissa..])
  }

  predicate IsNumeral(s: string) { s != "" && NumeralLength(s) == |s| }

  function HexValue(c: char): (n: Option<nat>)
    ensures n.Some? ==> n.value < 16
  {
    if '0' <= c <= '9' then Some((c as int) - ('0' as int))
    else if 'a' <= c <= 'f' then Some((c as int) - ('a' as int) + 10)
    else if 'A' <= c <= 'F' then Some((c as int) - ('A' as int) + 10)
    else None
  }

  /** The character of `\uXXXX`. Surrogate code units are not characters here. */
  function HexChar(s: string): Option<char> {
    if |s| < 4 then None
    else
      var a, b, c, d := HexValue(s[0]), HexValue(s[1]), HexValue(s[2]), HexValue(s[3]);
      if a.None? || b.None? || c.None? || d.None? then None
      else
        var code := ((a.value * 16 + b.value) * 16 + c.value) * 16 + d.value;
        if 0xD800 <= code < 0xE000 then None else Some(code as char)
  }

  function SimpleEscape(c: char): Option<char> {
    match c
    case '"' => Some('"')
    case '\'' => Some('\'')
    case '\\' => Some('\\')
    case '/' => Some('/')
    case 'b' => Some('\U{0008}')
    case 'f' => Some('\U{000C}')
    case 'n' => Some('\n')
    case 'r' => Some('\r')
    case 't' => Some('\t')
    case _ => None
  }

  /** One character or escape of a string literal: its value and its length. */
  function Unit(quote: char, s: string): (r: Option<(char, nat)>)
    ensures r.Some? ==> 0 < r.value.1 <= |s|
  {
    if s == "" || s[0] < ' ' then None
    else if s[0] != '\\' then Some((s[0], 1))
    else if |s| == 1 || (s[1] == '\'' && quote != '\'') then None
    else if s[1] == 'u' then
      match HexChar(s[2..])
      case None => None
      case Some(c) => Some((c, 6))
    else
      match SimpleEscape(s[1])
      case None => None
      case Some(c) => Some((c, 2))
  }

  /** The value of a string literal and the text after its closing quote. */
  function Quoted(quote: char, s: string): (r: Option<(string, string)>)
    ensures r.Some? ==> |r.value.1| < |s|
  {
    if s != "" && s[0] == quote then Some(("", s[1..]))
    else
      match Unit(quote, s)
      case None => None
      case Some((c, n)) =>
        match Quoted(quote, s[n..])
        case None => None
        case Some((value, rest)) => Some(([c] + value, rest))
  }

  /** The next token of `s` and the text after it. */
  function Next(p: Platform, s: string): (r: (Token, string))
    ensures !r.0.End? && !r.0.Stray? ==> |r.1| < |s|
  {
    Scan(p, SkipSpaces(p, s))
  }

  function Scan(p: Platform, s: string): (r: (Token, string))
    ensures !r.0.End? && !r.0.Stray? ==> |r.1| < |s|
  {
    if s == "" then (End, s)
    else if s[0] == '"' || s[0] == '\'' then
      match Quoted(s[0], s[1..])
      case None => (Stray, s)
      case Some((value, rest)) => (Text(value), rest)
    else if NumeralLength(s) > 0 then (Numeral(s[..NumeralLength(s)]), s[NumeralLength(s)..])
    else if NameLength(p, s) > 0 then (Name(s[..NameLength(p, s)]), s[NameLength(p, s)..])
    else if |s| > 1 && s[..2] in PAIRS then (Symbol(s[..2]), s[2..])
    else if s[0] in SINGLES then (Symbol(s[..1]), s[1..])
    else (Stray, s)
  }

  /** Every token up to the end or the first lexical error. */
  function Tokens(p: Platform, s: string): (ts: seq<Token>)
    ensures |ts| > 0
    decreases |s|
  {
    var (t, rest) := Next(p, s);
    if t.End? || t.Stray? then [t] else [t] + Tokens(p, rest)
  }

  // ----- the lexer object

  class Lexer {
    const platform: Platform
    const source: string
    var position: nat

    constructor (platform: Platform, source: string)
      ensures this.platform == platform && this.source == source && position == 0
    {
      this.platform, this.source, position := platform, source, 0;
    }

    method SkipBlanks()
      requires position <= |source|
      modifies this`position
      ensures position <= |source|
      ensures source[position..] == SkipSpaces(platform, source[old(position)..])
    {
      var rest := source[position..];
      ghost var start := rest;
      while rest != "" && platform.space(rest[0])
        invariant position <= |source| && rest == source[position..]
        invariant SkipSpaces(platform, rest) == SkipSpaces(platform, start)
        decreases |rest|
      {
        SkipOne(platform, rest);
        Tail(source, position, 1);
        position, rest := position + 1, rest[1..];
      }
    }

    /** `next`: skip blanks, then take the longest token of the first kind that matches. */
    method NextToken() returns (t: Token)
      requires position <= |source|
      modifies this`position
      ensures position <= |source|
      ensures t == Next(platform, source[old(position)..]).0
      ensures !t.Stray? ==> source[position..] == Next(platform, source[old(position)..]).1
    {
      SkipBlanks();
      t := ScanToken();
    }

    method ScanToken() returns (t: Token)
      requires position <= |source|
      modifies this`position
      ensures position <= |source|
      ensures t == Scan(platform, source[old(position)..]).0
      ensures !t.Stray? ==> source[position..] == Scan(platform, source[old(position)..]).1
    {
      var rest := source[position..];
      if rest == "" { return End; }
      if rest[0] == '"' || rest[0] == '\'' {
        assert rest[1..] == source[position + 1..];
        position := position + 1;
        t := StringLiteral(rest[0]);
        assert Quoted(rest[0], rest[1..]) == if t.Text? then Some((t.value, source[position..])) else None;
        return;
      }
      var length;
      t, length := Longest(rest);
      Tail(source, position, length);
      position := position + length;
    }

    /** The token at the start of `rest`, when it is not a string literal. */
    method Longest(rest: string) returns (t: Token, length: nat)
      requires rest != "" && rest[0] != '"' && rest[0] != '\''
      ensures length <= |rest| && t == Scan(platform, rest).0
      ensures !t.Stray? ==> rest[length..] == Scan(platform, rest).1
    {
      var numeral := NumeralLength(rest);
      if numeral > 0 { return Numeral(rest[..numeral]), numeral; }
      var name := NameLength(platform, rest);
      if name > 0 { return Name(rest[..name]), name; }
      if |rest| > 1 && rest[..2] in PAIRS { return Symbol(rest[..2]), 2; }
      if rest[0] in SINGLES { return Symbol(rest[..1]), 1; }
      return Stray, 0;
    }

    /** The characters of a string literal, after its opening quote. */
    method StringLiteral(quote: char) returns (t: Token)
      requires position <= |source|
      modifies this`position
      ensures position <= |source|
      ensures t == Stray || t.Text?
      ensures QuotedIs(quote, source[old(position)..], if t.Text? then Some((t.value, source[position..])) else None)
    {
      var value := "";
      var rest := source[position..];
      ghost var start := rest;
      AfterNothing(Quoted(quote, start));
      while rest != "" && rest[0] != quote
        invariant position <= |source| && rest == source[position..]
        invariant Continues(quote, start, value, rest)
        decreases |rest|
      {
        var unit := NextUnit(quote, rest, start, value);
        if unit.None? { return Stray; }
        Tail(source, position, unit.value.1);
        value, rest := value + [unit.value.0], rest[unit.value.1..];
        position := position + unit.value.1;
      }
      t := Finish(quote, rest, value, start);
    }

    /** The end of a literal: its closing quote, or the end of the text. */
    method Finish(quote: char, rest: string, value: string, ghost start: string) returns (t: Token)
      requires position <= |source| && rest == source[position..]
      requires (rest == "" || rest[0] == quote) && Continues(quote, start, value, rest)
      modifies this`position
      ensures position <= |source| && (t == Stray || t == Text(value))
      ensures QuotedIs(quote, start, if t.Text? then Some((value, source[position..])) else None)
    {
      if rest == "" {
        QuotedRunsOut(quote, start, value, rest);
        return Stray;
      }
      QuotedEnds(quote, start, value, rest);
      Tail(source, position, 1);
      position := position + 1;
      return Text(value);
    }

    method NextUnit(quote: char, rest: string, ghost start: string, ghost value: string) returns (unit: Option<(char, nat)>)
      requires rest != "" && rest[0] != quote && Continues(quote, start, value, rest)
      ensures if unit.None? then QuotedIs(quote, start, None)
              else 0 < unit.value.1 <= |rest| && Continues(quote, start, value + [unit.value.0], rest[unit.value.1..])
    {
      unit := Unit(quote, rest);
      QuotedStep(quote, start, value, rest);
    }
  }

  function After(value: string, r: Option<(string, string)>): Option<(string, string)> {
    match r
    case None => None
    case Some((more, rest)) => Some((value + more, rest))
  }

  ghost predicate QuotedIs(quote: char, start: string, r: Option<(string, string)>) {
    forall s {:trigger Quoted(quote, s)} :: s == start ==> Quoted(quote, s) == r
  }

  /** Reading from `start` on has given `value` and goes on at `rest`. */
  ghost predicate Continues(quote: char, start: string, value: string, rest: string) {
    forall s {:trigger Quoted(quote, s)} :: s == start ==> Quoted(quote, s) == After(value, Quoted(quote, rest))
  }

  lemma {:induction false} QuotedStep(quote: char, start: string, value: string, s: string)
    requires s != "" && s[0] != quote && Continues(quote, start, value, s)
    ensures var unit := Unit(quote, s);
            if unit.None? then QuotedIs(quote, start, None)
            else Continues(quote, start, value + [unit.value.0], s[unit.value.1..])
  {
    var unit := Unit(quote, s);
    if unit.Some? {
      assert Quoted(quote, s) == After([unit.value.0], Quoted(quote, s[unit.value.1..]));
      AfterAppend(value, unit.value.0, Quoted(quote, s[unit.value.1..]));
    }
    assert Quoted(quote, start) == After(value, Quoted(quote, s));
  }

  lemma {:induction false} QuotedEnds(quote: char, start: string, value: string, s: string)
    requires s != "" && s[0] == quote && Continues(quote, start, value, s)
    ensures QuotedIs(quote, start, Some((value, s[1..])))
  {
    assert value + "" == value;
    assert Quoted(quote, start) == After(value, Quoted(quote, s));
  }

  lemma {:induction false} QuotedRunsOut(quote: char, start: string, value: string, s: string)
    requires s == "" && Continues(quote, start, value, s)
    ensures QuotedIs(quote, start, None)
  {
    assert Quoted(quote, start) == After(value, Quoted(quote, s));
  }

  lemma {:induction false} AfterNothing(r: Option<(string, string)>)
    ensures After("", r) == r
  {
    if r.Some? { assert "" + r.value.0 == r.value.0; }
  }

  lemma {:induction false} AfterAppend(value: string, c: char, r: Option<(string, string)>)
    ensures After(value + [c], r) == After(value, After([c], r))
  {
    if r.Some? { assert value + [c] + r.value.0 == value + ([c] + r.value.0); }
  }

  lemma {:induction false} Tail(s: string, i: nat, k: nat)
    requires i + k <= |s|
    ensures s[i..][k..] == s[i + k..]
  {
  }

  lemma {:induction false} SkipOne(p: Platform, s: string)
    requires s != "" && p.space(s[0])
    ensures SkipSpaces(p, s) == SkipSpaces(p, s[1..])
  {
  }
}
