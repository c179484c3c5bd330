/** Renaming a formula in a document, on the stored text. */
module RenameText {
  import opened Platforms
  import opened Syntax
  import opened Lexing
  import opened Parsing
  import opened Printing
  import opened RoundTrip
  import opened RoundTripExact
  import opened Evaluation
  import opened Formulas
  import opened FormulaMemo
  import opened RenameMeaning

  // ----- one expression

  function AsciiLower(c: char): char {
    if 'A' <= c <= 'Z' then (c as int + 32) as char else c
  }

  /** `formula` at position `i`, ignoring ASCII case. */
  predicate FormulaAt(s: string, i: nat) {
    i + 7 <= |s| && forall j :: 0 <= j < 7 ==> AsciiLower(s[i + j]) == "formula"[j]
  }

  /** `/formula/i.test(source)`. */
  predicate Mentions(s: string) {
    exists i :: 0 <= i < |s| && FormulaAt(s, i)
  }

  /** The printer with the new name put in place of each reference. */
  function RenderRenamed(p: Platform, names: seq<string>, from: nat, to: string, e: Expr): string {
    match e
    case Literal(value) => RenderLiteral(p, value)
    case Identifier(name) => name
    case ListOf(items) => "[" + RenderRenamedAll(p, names, from, to, items) + "]"
    case Unary(operator, operand) => "(" + operator + RenderRenamed(p, names, from, to, operand) + ")"
    case Binary(operator, left, right) =>
      "(" + RenderRenamed(p, names, from, to, left) + " " + operator + " " + RenderRenamed(p, names, from, to, right) + ")"
    case Call(callee, args) =>
      RenderRenamed(p, names, from, to, callee) + "(" + RenderRenamedAll(p, names, from, to, args) + ")"
    case Member(owner, key, computed) =>
      var printed := RenderRenamed(p, names, from, to, owner);
      if IsReference(p, e) && Refers(p, names, from, key.value.text) then
        if !computed && IsName(p, to) then printed + "." + to else printed + "[" + Quote(to) + "]"
      else if !computed && key.Literal? && key.value.Str? && IsName(p, key.value.text) then printed + "." + key.value.text
      else printed + "[" + RenderRenamed(p, names, from, to, key) + "]"
  }

  function RenderRenamedAll(p: Platform, names: seq<string>, from: nat, to: string, items: seq<Expr>): string {
    if items == [] then ""
    else if |items| == 1 then RenderRenamed(p, names, from, to, items[0])
    else RenderRenamed(p, names, from, to, items[0]) + ", " + RenderRenamedAll(p, names, from, to, items[1..])
  }

  /** The printer's `changed` flag. */
  predicate Changed(p: Platform, names: seq<string>, from: nat, e: Expr) {
    match e
    case Literal(_) => false
    case Identifier(_) => false
    case ListOf(items) => exists i :: 0 <= i < |items| && Changed(p, names, from, items[i])
    case Unary(_, operand) => Changed(p, names, from, operand)
    case Binary(_, left, right) => Changed(p, names, from, left) || Changed(p, names, from, right)
    case Call(callee, args) => Changed(p, names, from, callee) || exists i :: 0 <= i < |args| && Changed(p, names, from, args[i])
    case Member(owner, key, _) =>
      (IsReference(p, e) && Refers(p, names, from, key.value.text)) || Changed(p, names, from, owner) || Changed(p, names, from, key)
  }

  /** `renameFormulaExpression`; nothing when it throws. */
  function RenameExpression(p: Platform, names: seq<string>, from: nat, to: string, source: string): Option<string> {
    if !Mentions(source) then Some(source)
    else
      match ParseText(p, source)
      case None => None
      case Some(e) =>
        if !AllFinite(p, e) then None
        else Some(if Changed(p, names, from, e) then RenderRenamed(p, names, from, to, e) else source)
  }

  // ----- the rewritten text parses to the rewritten tree

  lemma {:induction false} UnchangedRewrites(p: Platform, names: seq<string>, from: nat, to: string, plain: bool, e: Expr)
    requires !Changed(p, names, from, e)
    ensures Rewrite(p, names, from, to, plain, e) == e
  {
    match e
    case Literal(_) =>
    case Identifier(_) =>
    case ListOf(items) =>
      forall i | 0 <= i < |items| { UnchangedRewrites(p, names, from, to, plain, items[i]); }
    case Unary(_, operand) => UnchangedRewrites(p, names, from, to, plain, operand);
    case Binary(_, left, right) =>
      UnchangedRewrites(p, names, from, to, plain, left);
      UnchangedRewrites(p, names, from, to, plain, right);
    case Call(callee, args) =>
      UnchangedRewrites(p, names, from, to, plain, callee);
      forall i | 0 <= i < |args| { UnchangedRewrites(p, names, from, to, plain, args[i]); }
    case Member(owner, key, _) =>
      UnchangedRewrites(p, names, from, to, plain, owner);
      UnchangedRewrites(p, names, from, to, plain, key);
  }

  lemma {:induction false} UnmentionedUnchanged(p: Platform, names: seq<string>, from: nat, e: Expr)
    requires Identifiers(e, name => p.lower(name) != "formula")
    ensures !Changed(p, names, from, e)
  {
    match e
    case Literal(_) =>
    case Identifier(_) =>
    case ListOf(items) => forall i | 0 <= i < |items| { UnmentionedUnchanged(p, names, from, items[i]); }
    case Unary(_, operand) => UnmentionedUnchanged(p, names, from, operand);
    case Binary(_, left, right) =>
      UnmentionedUnchanged(p, names, from, left);
      UnmentionedUnchanged(p, names, from, right);
    case Call(callee, args) =>
      UnmentionedUnchanged(p, names, from, callee);
      forall i | 0 <= i < |args| { UnmentionedUnchanged(p, names, from, args[i]); }
    case Member(owner, key, _) =>
      UnmentionedUnchanged(p, names, from, owner);
      UnmentionedUnchanged(p, names, from, key);
  }

  lemma {:induction false} RewriteWellFormed(p: Platform, names: seq<string>, from: nat, to: string, e: Expr)
    requires WellFormed(p, e)
    ensures WellFormed(p, Rewrite(p, names, from, to, IsName(p, to), e))
  {
    match e
    case Literal(_) =>
    case Identifier(_) =>
    case ListOf(items) => forall i | 0 <= i < |items| { RewriteWellFormed(p, names, from, to, items[i]); }
    case Unary(_, operand) => RewriteWellFormed(p, names, from, to, operand);
    case Binary(_, left, right) =>
      RewriteWellFormed(p, names, from, to, left);
      RewriteWellFormed(p, names, from, to, right);
    case Call(callee, args) =>
      RewriteWellFormed(p, names, from, to, callee);
      forall i | 0 <= i < |args| { RewriteWellFormed(p, names, from, to, args[i]); }
    case Member(owner, key, _) =>
      RewriteWellFormed(p, names, from, to, owner);
      RewriteWellFormed(p, names, from, to, key);
  }

  lemma {:induction false} RenderedRewrite(p: Platform, names: seq<string>, from: nat, to: string, e: Expr)
    requires WellFormed(p, e)
    ensures RenderRenamed(p, names, from, to, e) == Render(p, Rewrite(p, names, from, to, IsName(p, to), e))
    decreases e, 0
  {
    match e
    case Literal(_) =>
    case Identifier(_) =>
    case ListOf(items) => RenderedRewriteAll(p, names, from, to, e, items);
    case Unary(_, operand) => RenderedRewrite(p, names, from, to, operand);
    case Binary(_, left, right) =>
      RenderedRewrite(p, names, from, to, left);
      RenderedRewrite(p, names, from, to, right);
    case Call(callee, args) =>
      RenderedRewrite(p, names, from, to, callee);
      RenderedRewriteAll(p, names, from, to, e, args);
    case Member(owner, key, computed) =>
      RenderedRewrite(p, names, from, to, owner);
      RenderedRewrite(p, names, from, to, key);
  }

  lemma {:induction false} RenderedRewriteAll(p: Platform, names: seq<string>, from: nat, to: string, parent: Expr, items: seq<Expr>)
    requires forall i :: 0 <= i < |items| ==> items[i] < parent && WellFormed(p, items[i])
    ensures RenderRenamedAll(p, names, from, to, items)
         == RenderAll(p, seq(|items|, i requires 0 <= i < |items| => Rewrite(p, names, from, to, IsName(p, to), items[i])))
    decreases parent, -1, |items|
  {
    var rewritten := seq(|items|, i requires 0 <= i < |items| => Rewrite(p, names, from, to, IsName(p, to), items[i]));
    if items != [] {
      RenderedRewrite(p, names, from, to, items[0]);
      RenderedRewriteAll(p, names, from, to, parent, items[1..]);
      assert rewritten[1..] == seq(|items[1..]|, i requires 0 <= i < |items[1..]| => Rewrite(p, names, from, to, IsName(p, to), items[1..][i]));
    }
  }

  /** Only spellings of `formula` fold to it, and blank text is no name. */
  ghost predicate FoldsFormula(p: Platform) {
    forall name :: p.lower(name) == "formula" ==> FormulaAt(name, 0)
  }

  lemma {:induction false} UnmentionedNames(p: Platform, source: string)
    requires FoldsFormula(p) && !Mentions(source)
    ensures AllInside(source, name => p.lower(name) != "formula")
  {
    forall word | Inside(word, source)
      ensures p.lower(word) != "formula"
    {
      if p.lower(word) == "formula" { MentionInside(word, source); }
    }
  }

  lemma {:induction false} MentionInside(word: string, source: string)
    requires FormulaAt(word, 0) && Inside(word, source)
    ensures Mentions(source)
  {
    var i: nat :| StandsAt(word, source, i);
    assert forall j :: 0 <= j < 7 ==> source[i + j] == word[j];
    assert FormulaAt(source, i);
  }

  /** What keeps the rewritten text readable. */
  predicate Readable(p: Platform, e: Expr) {
    Printable(p, e) && Nesting(e) <= MAX_NESTING
  }

  lemma {:induction false} RewriteFinite(p: Platform, names: seq<string>, from: nat, to: string, plain: bool, e: Expr)
    requires AllFinite(p, e)
    ensures AllFinite(p, Rewrite(p, names, from, to, plain, e))
  {
    match e
    case Literal(_) =>
    case Identifier(_) =>
    case ListOf(items) => forall i | 0 <= i < |items| { RewriteFinite(p, names, from, to, plain, items[i]); }
    case Unary(_, operand) => RewriteFinite(p, names, from, to, plain, operand);
    case Binary(_, left, right) =>
      RewriteFinite(p, names, from, to, plain, left);
      RewriteFinite(p, names, from, to, plain, right);
    case Call(callee, args) =>
      RewriteFinite(p, names, from, to, plain, callee);
      forall i | 0 <= i < |args| { RewriteFinite(p, names, from, to, plain, args[i]); }
    case Member(owner, key, _) =>
      RewriteFinite(p, names, from, to, plain, owner);
      RewriteFinite(p, names, from, to, plain, key);
  }

  lemma {:induction false} ChangedComesBack(p: LawfulPlatform, names: seq<string>, from: nat, to: string, source: string, e: Expr)
    requires ParseText(p, source) == Some(e) && AllFinite(p, e)
    ensures ParseText(p, RenderRenamed(p, names, from, to, e)) == Some(Rewrite(p, names, from, to, IsName(p, to), e))
       <==> Readable(p, Rewrite(p, names, from, to, IsName(p, to), e))
  {
    ParsedIsWellFormed(p, source, name => true);
    RewriteWellFormed(p, names, from, to, e);
    RewriteFinite(p, names, from, to, IsName(p, to), e);
    RenderedRewrite(p, names, from, to, e);
    ComesBackExactly(p, Rewrite(p, names, from, to, IsName(p, to), e));
  }

  lemma {:induction false} UnmentionedKept(p: LawfulPlatform, names: seq<string>, from: nat, source: string, e: Expr)
    requires FoldsFormula(p) && ParseText(p, source) == Some(e) && !Mentions(source)
    ensures !Changed(p, names, from, e)
  {
    UnmentionedNames(p, source);
    ParsedIsWellFormed(p, source, name => p.lower(name) != "formula");
    UnmentionedUnchanged(p, names, from, e);
  }

  /** The stored text after the rename parses to the rewritten tree, exactly when the
      text was kept or the rewritten tree is readable. */
  lemma {:induction false} RenamedTextExact(p: LawfulPlatform, names: seq<string>, from: nat, to: string, source: string, e: Expr)
    requires FoldsFormula(p) && ParseText(p, source) == Some(e) && RenameExpression(p, names, from, to, source).Some?
    ensures ParseText(p, RenameExpression(p, names, from, to, source).value) == Some(Rewrite(p, names, from, to, IsName(p, to), e))
       <==> (Changed(p, names, from, e) ==> Readable(p, Rewrite(p, names, from, to, IsName(p, to), e)))
  {
    if !Mentions(source) { UnmentionedKept(p, names, from, source, e); }
    if Changed(p, names, from, e) { ChangedComesBack(p, names, from, to, source, e); }
    else { UnchangedRewrites(p, names, from, to, IsName(p, to), e); }
  }

  lemma {:induction false} RenamedTextParses(p: LawfulPlatform, names: seq<string>, from: nat, to: string, source: string)
    requires FoldsFormula(p) && ParseText(p, source).Some?
    requires Changed(p, names, from, ParseText(p, source).value) ==>
               Readable(p, Rewrite(p, names, from, to, IsName(p, to), ParseText(p, source).value))
    requires RenameExpression(p, names, from, to, source).Some?
    ensures ParseText(p, RenameExpression(p, names, from, to, source).value)
         == Some(Rewrite(p, names, from, to, IsName(p, to), ParseText(p, source).value))
  {
    RenamedTextExact(p, names, from, to, source, ParseText(p, source).value);
  }

  // ----- the document

  /** The parts of a Base document that a rename reads or writes: the formulas
      in order, every filter and summary expression, and every property ID, of
      the root and of the views without a source of their own. */
  datatype Document = Document(formulas: seq<(string, string)>, expressions: seq<string>, ids: seq<string>)

  function FormulaNames(doc: Document): (names: seq<string>)
    ensures |names| == |doc.formulas|
  {
    seq(|doc.formulas|, i requires 0 <= i < |doc.formulas| => doc.formulas[i].0)
  }

  predicate IsFormulaId(id: string) { |id| >= 8 && id[..8] == "formula." }

  function RenameId(p: Platform, names: seq<string>, from: nat, to: string, id: string): string {
    if IsFormulaId(id) && Refers(p, names, from, id[8..]) then "formula." + to else id
  }

  function RenameAll(p: Platform, names: seq<string>, from: nat, to: string, sources: seq<string>): Option<seq<string>> {
    if sources == [] then Some([])
    else
      var first, rest := RenameExpression(p, names, from, to, sources[0]), RenameAll(p, names, from, to, sources[1..]);
      if first.None? || rest.None? then None else Some([first.value] + rest.value)
  }

  /** `BaseDocument.renameFormula`; nothing when it throws, and then the document stays as it was. */
  function RenameFormula(p: Platform, doc: Document, from: string, to: string): Option<Document> {
    var names := FormulaNames(doc);
    if Run(to, p.space) == |to| || from !in names then None
    else if from == to then Some(doc)
    else if to in names then None
    else
      var at := FirstIndex(names, name => name == from);
      var bodies := RenameAll(p, names, at, to, seq(|doc.formulas|, i requires 0 <= i < |doc.formulas| => doc.formulas[i].1));
      var expressions := RenameAll(p, names, at, to, doc.expressions);
      if bodies.None? || expressions.None? || |bodies.value| != |names| then None
      else
        var renamed := names[at := to];
        Some(Document(
          seq(|names|, i requires 0 <= i < |names| => (renamed[i], bodies.value[i])),
          expressions.value,
          seq(|doc.ids|, i requires 0 <= i < |doc.ids| => RenameId(p, names, at, to, doc.ids[i]))))
  }

  // ----- evaluating a document

  function Configure(p: Platform, row: Row, doc: Document): Config {
    Config(p, row, seq(|doc.formulas|, i requires 0 <= i < |doc.formulas| =>
                       Formula(doc.formulas[i].0, CompileBody(p, doc.formulas[i].1))))
  }

  /** An expression's outcome in a fresh row; text that does not parse is a parse fault. */
  function Outcomes(p: Platform, row: Row, doc: Document, source: string, budget: nat): Outcome {
    match ParseText(p, source)
    case None => Faults(Parse)
    case Some(e) => Ask(Configure(p, row, doc), Request(e, budget), map[]).outcome
  }

  /** A property's value; its namespace ends at the first dot. */
  function IdOutcome(p: Platform, row: Row, doc: Document, id: string, budget: nat): Outcome {
    var dot := Run(id, c => c != '.');
    if dot == |id| then Faults(Access)
    else Ask(Configure(p, row, doc), Request(PropertyRead(id[..dot], id[dot + 1..]), budget), map[]).outcome
  }

  /** The condition on one stored expression. */
  ghost predicate SafeText(p: Platform, names: seq<string>, from: nat, to: string, opens: string -> bool, source: string)
    requires from < |names|
  {
    var r := ParseText(p, source);
    r.Some? ==>
      Safe(p, names, from, to, opens, r.value)
      && (Changed(p, names, from, r.value) ==> Readable(p, Rewrite(p, names, from, to, IsName(p, to), r.value)))
  }

  ghost predicate SafeDocument(p: Platform, row: Row, doc: Document, from: string, to: string, opens: string -> bool) {
    var names := FormulaNames(doc);
    && KeepsClean(p, row, opens) && FoldsLambdaNames(p) && FoldsFormula(p) && p.lower("formula") == "formula"
    && (forall i, j :: 0 <= i < j < |names| ==> names[i] != names[j])
    && from in names
    && (forall i :: 0 <= i < |names| ==> SafeText(p, names, FirstIndex(names, name => name == from), to, opens, doc.formulas[i].1))
  }

  lemma {:induction false} RenameAllEach(p: Platform, names: seq<string>, from: nat, to: string, sources: seq<string>)
    requires RenameAll(p, names, from, to, sources).Some?
    ensures var r := RenameAll(p, names, from, to, sources).value;
            |r| == |sources|
            && forall i :: 0 <= i < |sources| ==> RenameExpression(p, names, from, to, sources[i]) == Some(r[i])
  {
    if sources != [] { RenameAllEach(p, names, from, to, sources[1..]); }
  }

  lemma {:induction false} ExactIndex(p: Platform, names: seq<string>, from: string)
    requires from in names
    ensures FirstIndex(names, name => name == from) < |names|
    ensures names[FirstIndex(names, name => name == from)] == from
  {
  }

  /** A successful rename, entry by entry. */
  lemma {:induction false} RenamedShape(p: Platform, doc: Document, from: string, to: string)
    requires from != to && RenameFormula(p, doc, from, to).Some?
    ensures var names := FormulaNames(doc);
            var at := FirstIndex(names, name => name == from);
            var renamed := RenameFormula(p, doc, from, to).value;
            && at < |names| && to !in names && |renamed.formulas| == |names| && |renamed.ids| == |doc.ids|
            && (forall i :: 0 <= i < |names| ==> renamed.formulas[i].0 == if i == at then to else names[i])
            && (forall i :: 0 <= i < |names| ==>
                  RenameExpression(p, names, at, to, doc.formulas[i].1) == Some(renamed.formulas[i].1))
            && (forall i :: 0 <= i < |doc.ids| ==> renamed.ids[i] == RenameId(p, names, at, to, doc.ids[i]))
  {
    var names := FormulaNames(doc);
    ExactIndex(p, names, from);
    var at := FirstIndex(names, name => name == from);
    var bodies := seq(|doc.formulas|, i requires 0 <= i < |doc.formulas| => doc.formulas[i].1);
    RenameAllEach(p, names, at, to, bodies);
    assert forall i :: 0 <= i < |names| ==> bodies[i] == doc.formulas[i].1;
  }

  /** The renamed document is the renaming of the tree-level theory. */
  lemma {:induction false} RenamedConfiguration(p: LawfulPlatform, row: Row, doc: Document, from: string, to: string, opens: string -> bool)
    requires SafeDocument(p, row, doc, from, to, opens) && from != to && RenameFormula(p, doc, from, to).Some?
    ensures var names := FormulaNames(doc);
            var r := Renaming(Configure(p, row, doc), FirstIndex(names, name => name == from), to, IsName(p, to), opens);
            r.Names() == names && r.Admissible() && Configure(p, row, RenameFormula(p, doc, from, to).value) == r.After()
  {
    var names := FormulaNames(doc);
    RenamedShape(p, doc, from, to);
    var at := FirstIndex(names, name => name == from);
    var r := Renaming(Configure(p, row, doc), at, to, IsName(p, to), opens);
    assert r.Names() == names;
    RenamingAdmissible(p, row, doc, from, to, opens);
    var renamed := RenameFormula(p, doc, from, to).value;
    forall i | 0 <= i < |names|
      ensures Formula(renamed.formulas[i].0, CompileBody(p, renamed.formulas[i].1)) == r.After().formulas[i]
    {
      BodyRenamed(p, names, at, to, opens, doc.formulas[i].1);
    }
    assert Configure(p, row, renamed).formulas == r.After().formulas;
  }

  lemma {:induction false} RenamingAdmissible(p: Platform, row: Row, doc: Document, from: string, to: string, opens: string -> bool)
    requires SafeDocument(p, row, doc, from, to, opens) && to !in FormulaNames(doc)
    ensures var names := FormulaNames(doc);
            Renaming(Configure(p, row, doc), FirstIndex(names, name => name == from), to, IsName(p, to), opens).Admissible()
  {
    var names := FormulaNames(doc);
    ExactIndex(p, names, from);
    var at := FirstIndex(names, name => name == from);
    var r := Renaming(Configure(p, row, doc), at, to, IsName(p, to), opens);
    assert r.Names() == names;
    forall i | 0 <= i < |names|
      ensures r.c.formulas[i].name == names[i]
      ensures r.c.formulas[i].body.Compiled? ==> r.SafeTree(r.c.formulas[i].body.tree)
    {
      SafeBody(p, names, at, to, opens, doc.formulas[i].1);
    }
  }

  lemma {:induction false} SafeBody(p: Platform, names: seq<string>, from: nat, to: string, opens: string -> bool, source: string)
    requires from < |names| && SafeText(p, names, from, to, opens, source)
    ensures var body := CompileBody(p, source); body.Compiled? ==> Safe(p, names, from, to, opens, body.tree)
  {
  }

  lemma {:induction false} BodyRenamed(p: LawfulPlatform, names: seq<string>, from: nat, to: string, opens: string -> bool, source: string)
    requires FoldsFormula(p) && from < |names| && SafeText(p, names, from, to, opens, source)
    requires RenameExpression(p, names, from, to, source).Some?
    ensures CompileBody(p, RenameExpression(p, names, from, to, source).value)
         == match ParseText(p, source)
            case None => Broken
            case Some(e) => Compiled(Rewrite(p, names, from, to, IsName(p, to), e))
  {
    if ParseText(p, source).Some? { RenamedTextParses(p, names, from, to, source); }
  }

  // ----- main results

  /** Every stored expression of the renamed document evaluates as it did before. */
  lemma {:induction false} RenameFormulaKeepsExpressions(p: LawfulPlatform, row: Row, doc: Document, from: string, to: string, opens: string -> bool, i: nat, budget: nat)
    requires SafeDocument(p, row, doc, from, to, opens) && i < |doc.expressions|
    requires SafeText(p, FormulaNames(doc), FirstIndex(FormulaNames(doc), name => name == from), to, opens, doc.expressions[i])
    requires RenameFormula(p, doc, from, to).Some?
    ensures var renamed := RenameFormula(p, doc, from, to).value;
            |renamed.expressions| == |doc.expressions|
            && Outcomes(p, row, renamed, renamed.expressions[i], budget) == Outcomes(p, row, doc, doc.expressions[i], budget)
  {
    if from != to {
      var names := FormulaNames(doc);
      ExactIndex(p, names, from);
      var at := FirstIndex(names, name => name == from);
      RenamedConfiguration(p, row, doc, from, to, opens);
      RenameAllEach(p, names, at, to, doc.expressions);
      TextKept(p, row, doc, RenameFormula(p, doc, from, to).value, at, to, opens, doc.expressions[i], budget);
    }
  }

  lemma {:induction false} TextKept(p: LawfulPlatform, row: Row, doc: Document, renamed: Document, at: nat, to: string, opens: string -> bool, source: string, budget: nat)
    requires FoldsFormula(p) && at < |doc.formulas| && SafeText(p, FormulaNames(doc), at, to, opens, source)
    requires var r := Renaming(Configure(p, row, doc), at, to, IsName(p, to), opens);
             r.Names() == FormulaNames(doc) && r.Admissible() && Configure(p, row, renamed) == r.After()
    requires RenameExpression(p, FormulaNames(doc), at, to, source).Some?
    ensures Outcomes(p, row, renamed, RenameExpression(p, FormulaNames(doc), at, to, source).value, budget) == Outcomes(p, row, doc, source, budget)
  {
    var r := Renaming(Configure(p, row, doc), at, to, IsName(p, to), opens);
    BodyRenamed(p, FormulaNames(doc), at, to, opens, source);
    if ParseText(p, source).Some? { RenamePreservesMeaning(r, [], Request(ParseText(p, source).value, budget)); }
  }

  /** Every property ID of the renamed document reads what it read before. */
  lemma {:induction false} RenameFormulaKeepsIds(p: LawfulPlatform, row: Row, doc: Document, from: string, to: string, opens: string -> bool, i: nat, budget: nat)
    requires SafeDocument(p, row, doc, from, to, opens) && i < |doc.ids| && IsFormulaId(doc.ids[i])
    requires from in FormulaNames(doc)
             && !Captures(p, FormulaNames(doc), FirstIndex(FormulaNames(doc), name => name == from), to, doc.ids[i][8..])
    requires RenameFormula(p, doc, from, to).Some?
    ensures var renamed := RenameFormula(p, doc, from, to).value;
            |renamed.ids| == |doc.ids|
            && IdOutcome(p, row, renamed, renamed.ids[i], budget) == IdOutcome(p, row, doc, doc.ids[i], budget)
  {
    if from != to {
      var names := FormulaNames(doc);
      var at := FirstIndex(names, name => name == from);
      var r := Renaming(Configure(p, row, doc), at, to, IsName(p, to), opens);
      RenamedConfiguration(p, row, doc, from, to, opens);
      RenamedShape(p, doc, from, to);
      IdReads(p, row, doc, doc.ids[i], budget);
      var renamed := RenameFormula(p, doc, from, to).value;
      IdReads(p, row, renamed, renamed.ids[i], budget);
      assert ("formula." + to)[8..] == to;
      PropertyIdRenamed(r, doc.ids[i][8..], "formula", budget);
    }
  }

  lemma {:induction false} IdReads(p: Platform, row: Row, doc: Document, id: string, budget: nat)
    requires IsFormulaId(id)
    ensures IdOutcome(p, row, doc, id, budget)
         == Ask(Configure(p, row, doc), Request(PropertyRead("formula", id[8..]), budget), map[]).outcome
  {
    FormulaIdSplits(id);
  }

  lemma {:induction false} FormulaIdSplits(id: string)
    requires IsFormulaId(id)
    ensures Run(id, c => c != '.') == 7 && id[..7] == "formula" && 7 < |id|
  {
    assert id == "formula." + id[8..];
    assert id[7] == '.';
    assert id[0] == 'f' && id[1] == 'o' && id[2] == 'r' && id[3] == 'm' && id[4] == 'u' && id[5] == 'l' && id[6] == 'a';
    RunIs(id, c => c != '.', 7);
  }

  lemma {:induction false} RunIs(s: string, ok: char -> bool, n: nat)
    requires n < |s| && !ok(s[n]) && forall i :: 0 <= i < n ==> ok(s[i])
    ensures Run(s, ok) == n
  {
  }
}
