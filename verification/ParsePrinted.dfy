/** Parsing the tokens of a tree gives back the tree, and the round trip of text. */
module ParsePrinted {
  import opened Platforms
  import opened Syntax
  import opened Lexing
  import opened Parsing
  import opened ParseRules
  import opened Printing
  import opened LexPrinted

  ghost predicate Admitted(p: Platform, e: Expr) {
    WellFormed(p, e) && Printable(p, e)
  }

  lemma {:induction false} FirstToken(p: Platform, e: Expr)
    ensures var t := Toks(p, e)[0]; !t.Stray? && !t.End? && t !in [Symbol(")"), Symbol("]"), Symbol(",")]
  {
    match e
    case Member(owner, _, _) => FirstToken(p, owner);
    case Call(callee, _) => FirstToken(p, callee);
    case _ =>
  }

  lemma {:induction false} ToksSound(p: Platform, e: Expr, ts: seq<Token>)
    ensures Sound(Toks(p, e) + ts)
  {
    FirstToken(p, e);
  }

  lemma {:induction false} ItemsSound(p: Platform, items: seq<Expr>, close: string, rest: seq<Token>)
    requires close in [")", "]"]
    ensures Sound(ToksAll(p, items) + ([Symbol(close)] + rest))
    ensures items != [] ==> (ToksAll(p, items) + ([Symbol(close)] + rest))[0] != Symbol(close)
  {
    if items != [] { FirstToken(p, items[0]); }
  }

  /** The tokens of `e` read as `e`, and what follows goes on from there,
      exactly when the nesting limit allows. */
  lemma {:induction false} ParseToks(p: NumberedPlatform, e: Expr, rest: seq<Token>, levels: nat, minimum: nat, r: Parsed<Expr>)
    requires Admitted(p, e) && Sound(rest)
    requires if levels >= Nesting(e) then SuffixesAre(p, e, rest, levels - 1, minimum, r) else r.Failed?
    ensures ExpressionIs(p, Toks(p, e) + rest, levels, minimum, r)
    decreases e, 1
  {
    match e
    case Member(_, _, computed) =>
      if computed { ParseIndex(p, e, rest, levels, minimum, r); } else { ParseDot(p, e, rest, levels, minimum, r); }
    case Call(_, _) => ParseCall(p, e, rest, levels, minimum, r);
    case _ => ParseAtom(p, e, rest, levels, minimum, r);
  }

  lemma {:induction false} ParseAtom(p: NumberedPlatform, e: Expr, rest: seq<Token>, levels: nat, minimum: nat, r: Parsed<Expr>)
    requires Admitted(p, e) && Sound(rest) && !e.Member? && !e.Call?
    requires if levels >= Nesting(e) then SuffixesAre(p, e, rest, levels - 1, minimum, r) else r.Failed?
    ensures ExpressionIs(p, Toks(p, e) + rest, levels, minimum, r)
    decreases e, 0, 1
  {
    if levels == 0 { TooDeep(p, Toks(p, e) + rest, minimum); }
    else {
      ParsePrimary(p, e, rest, levels - 1);
      PrimaryFirst(p, Toks(p, e) + rest, levels - 1, minimum, e, rest, levels >= Nesting(e), r);
    }
  }

  lemma {:induction false} ParseOperand(p: NumberedPlatform, e: Expr, rest: seq<Token>, levels: nat, minimum: nat)
    requires Admitted(p, e) && Closes(rest)
    ensures ExpressionIs(p, Toks(p, e) + rest, levels, minimum, Read(e, rest, levels >= Nesting(e)))
    decreases e, 2
  {
    if levels >= Nesting(e) { Settles(p, e, rest, levels - 1, minimum); }
    ParseToks(p, e, rest, levels, minimum, Read(e, rest, levels >= Nesting(e)));
  }

  lemma {:induction false} ParsePrimary(p: NumberedPlatform, e: Expr, rest: seq<Token>, levels: nat)
    requires Admitted(p, e) && Sound(rest) && !e.Member? && !e.Call?
    ensures PrimaryIs(p, Toks(p, e) + rest, levels, Read(e, rest, levels + 1 >= Nesting(e)))
    decreases e, 0, 0, 1
  {
    match e
    case Literal(_) => AtomPrimary(p, Toks(p, e)[0], rest, levels);
    case Identifier(_) => AtomPrimary(p, Toks(p, e)[0], rest, levels);
    case ListOf(items) =>
      ToksList(p, e, rest);
      ItemsSound(p, items, "]", rest);
      ParseItems(p, e, items, "]", rest, levels);
      ListPrimary(p, items, ToksAll(p, items) + ([Symbol("]")] + rest), rest, levels, levels >= NestingAll(items));
    case Unary(_, _) => ParseUnary(p, e, rest, levels);
    case Binary(_, _, _) => ParseBinary(p, e, rest, levels);
  }

  lemma {:induction false} ParseUnary(p: NumberedPlatform, e: Expr, rest: seq<Token>, levels: nat)
    requires Admitted(p, e) && Sound(rest) && e.Unary?
    ensures PrimaryIs(p, Toks(p, e) + rest, levels, Read(e, rest, levels + 1 >= Nesting(e)))
    decreases e, 0, 0, 0
  {
    ToksUnary(p, e, rest);
    var closing := [Symbol(")")] + rest;
    var operand := Toks(p, e.operand) + closing;
    var inner := [Symbol(e.operator)] + operand;
    var fits := levels + 1 >= Nesting(e);
    ToksSound(p, e.operand, closing);
    if levels == 0 { TooDeep(p, inner, 0); }
    else {
      ParseOperand(p, e.operand, closing, levels - 1, 7);
      PrefixPrimary(p, e.operator, e.operand, operand, closing, levels - 1, fits);
      Settles(p, e, closing, levels - 1, 0);
      PrimaryFirst(p, inner, levels - 1, 0, e, closing, fits, Read(e, closing, fits));
    }
    ParenthesisedPrimary(p, e, inner, rest, levels, fits);
  }

  lemma {:induction false} ParseBinary(p: NumberedPlatform, e: Expr, rest: seq<Token>, levels: nat)
    requires Admitted(p, e) && Sound(rest) && e.Binary?
    ensures PrimaryIs(p, Toks(p, e) + rest, levels, Read(e, rest, levels + 1 >= Nesting(e)))
    decreases e, 0, 0, 0
  {
    ToksBinary(p, e, rest);
    var closing := [Symbol(")")] + rest;
    var right := Toks(p, e.right) + closing;
    var fits := levels + 1 >= Nesting(e);
    var goal := Read(e, closing, fits);
    ToksSound(p, e.right, closing);
    ToksSound(p, e.left, [Symbol(e.operator)] + right);
    if levels >= Nesting(e.left) { ParseRight(p, e, closing, levels); }
    ParseToks(p, e.left, [Symbol(e.operator)] + right, levels, 0, goal);
    ParenthesisedPrimary(p, e, Toks(p, e.left) + ([Symbol(e.operator)] + right), rest, levels, fits);
  }

  /** The operator and the right operand, after the left one. */
  lemma {:induction false} ParseRight(p: NumberedPlatform, e: Expr, closing: seq<Token>, levels: nat)
    requires Admitted(p, e) && Closes(closing) && e.Binary? && levels > 0
    ensures SuffixesAre(p, e.left, [Symbol(e.operator)] + (Toks(p, e.right) + closing), levels - 1, 0, Read(e, closing, levels - 1 >= Nesting(e.right)))
    decreases e, -1
  {
    ToksSound(p, e.right, closing);
    ParseOperand(p, e.right, closing, levels - 1, Strength(e.operator) + 1);
    Settles(p, e, closing, levels - 1, 0);
    InfixSuffix(p, e.left, e.operator, e.right, Toks(p, e.right) + closing, closing, levels - 1, 0, levels - 1 >= Nesting(e.right),
                Read(e, closing, levels - 1 >= Nesting(e.right)));
  }

  lemma {:induction false} ParseDot(p: NumberedPlatform, e: Expr, rest: seq<Token>, levels: nat, minimum: nat, r: Parsed<Expr>)
    requires Admitted(p, e) && Sound(rest) && e.Member? && !e.computed
    requires if levels >= Nesting(e) then SuffixesAre(p, e, rest, levels - 1, minimum, r) else r.Failed?
    ensures ExpressionIs(p, Toks(p, e) + rest, levels, minimum, r)
    decreases e, 0
  {
    ToksDot(p, e, rest);
    var name := e.key.value.text;
    assert e == Member(e.owner, Literal(Str(name)), false);
    if levels >= Nesting(e) { DotSuffix(p, e.owner, name, rest, levels - 1, minimum, r); }
    ParseToks(p, e.owner, [Symbol(".")] + ([Name(name)] + rest), levels, minimum, r);
  }

  lemma {:induction false} ParseIndex(p: NumberedPlatform, e: Expr, rest: seq<Token>, levels: nat, minimum: nat, r: Parsed<Expr>)
    requires Admitted(p, e) && Sound(rest) && e.Member? && e.computed
    requires if levels >= Nesting(e) then SuffixesAre(p, e, rest, levels - 1, minimum, r) else r.Failed?
    ensures ExpressionIs(p, Toks(p, e) + rest, levels, minimum, r)
    decreases e, 0
  {
    ToksIndex(p, e, rest);
    var closing := [Symbol("]")] + rest;
    var key := Toks(p, e.key) + closing;
    ToksSound(p, e.key, closing);
    if levels >= Nesting(e.owner) { ParseKey(p, e, rest, levels, minimum, r); }
    ParseToks(p, e.owner, [Symbol("[")] + key, levels, minimum, r);
  }

  lemma {:induction false} ParseKey(p: NumberedPlatform, e: Expr, rest: seq<Token>, levels: nat, minimum: nat, r: Parsed<Expr>)
    requires Admitted(p, e) && Sound(rest) && e.Member? && e.computed && levels > 0
    requires if levels - 1 >= Nesting(e.key) then SuffixesAre(p, e, rest, levels - 1, minimum, r) else r.Failed?
    ensures SuffixesAre(p, e.owner, [Symbol("[")] + (Toks(p, e.key) + ([Symbol("]")] + rest)), levels - 1, minimum, r)
    decreases e, -1
  {
    var closing := [Symbol("]")] + rest;
    ToksSound(p, e.key, closing);
    ParseOperand(p, e.key, closing, levels - 1, 0);
    IndexSuffix(p, e.owner, e.key, Toks(p, e.key) + closing, rest, levels - 1, minimum, levels - 1 >= Nesting(e.key), r);
  }

  lemma {:induction false} ParseCall(p: NumberedPlatform, e: Expr, rest: seq<Token>, levels: nat, minimum: nat, r: Parsed<Expr>)
    requires Admitted(p, e) && Sound(rest) && e.Call?
    requires if levels >= Nesting(e) then SuffixesAre(p, e, rest, levels - 1, minimum, r) else r.Failed?
    ensures ExpressionIs(p, Toks(p, e) + rest, levels, minimum, r)
    decreases e, 0
  {
    ToksCall(p, e, rest);
    var args := ToksAll(p, e.args) + ([Symbol(")")] + rest);
    ItemsSound(p, e.args, ")", rest);
    if levels >= Nesting(e.callee) {
      ParseItems(p, e, e.args, ")", rest, levels - 1);
      CallSuffix(p, e.callee, e.args, args, rest, levels - 1, minimum, levels - 1 >= NestingAll(e.args), r);
    }
    ParseToks(p, e.callee, [Symbol("(")] + args, levels, minimum, r);
  }

  lemma {:induction false} ParseItems(p: NumberedPlatform, parent: Expr, items: seq<Expr>, close: string, rest: seq<Token>, levels: nat)
    requires Sound(rest) && close in [")", "]"]
    requires forall i :: 0 <= i < |items| ==> items[i] < parent && WellFormed(p, items[i]) && Printable(p, items[i])
    ensures ItemsAre(p, ToksAll(p, items) + ([Symbol(close)] + rest), levels, close, Read(items, rest, levels >= NestingAll(items)))
    decreases parent, -1, |items| + 1
  {
    ItemsSound(p, items, close, rest);
    if items == [] {
      assert ToksAll(p, items) + ([Symbol(close)] + rest) == [Symbol(close)] + rest;
      NoItems(p, close, rest, levels);
    } else {
      ParseMoreItems(p, parent, items, close, rest, levels);
      SomeItems(p, ToksAll(p, items) + ([Symbol(close)] + rest), close, levels, Read(items, rest, levels >= NestingAll(items)));
    }
  }

  lemma {:induction false} ParseMoreItems(p: NumberedPlatform, parent: Expr, items: seq<Expr>, close: string, rest: seq<Token>, levels: nat)
    requires Sound(rest) && close in [")", "]"] && items != []
    requires forall i :: 0 <= i < |items| ==> items[i] < parent && WellFormed(p, items[i]) && Printable(p, items[i])
    ensures MoreItemsAre(p, ToksAll(p, items) + ([Symbol(close)] + rest), levels, close, Read(items, rest, levels >= NestingAll(items)))
    decreases parent, -1, |items|
  {
    var closing := [Symbol(close)] + rest;
    if |items| == 1 {
      assert items == [items[0]] && items[1..] == [];
      ParseOperand(p, items[0], closing, levels, 0);
      LastItem(p, items[0], Toks(p, items[0]) + closing, close, rest, levels, levels >= Nesting(items[0]));
    } else {
      var more := ToksAll(p, items[1..]) + closing;
      ToksItems(p, items, closing);
      assert items == [items[0]] + items[1..];
      ItemsSound(p, items[1..], close, rest);
      ParseOperand(p, items[0], [Symbol(",")] + more, levels, 0);
      ParseMoreItems(p, parent, items[1..], close, rest, levels);
      NextItem(p, items[0], items[1..], Toks(p, items[0]) + ([Symbol(",")] + more), more, close, rest, levels,
               levels >= Nesting(items[0]), levels >= NestingAll(items[1..]));
    }
  }
}
