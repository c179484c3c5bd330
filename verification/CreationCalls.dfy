/** Properties inferred from the text methods: exactly which calls they satisfy. */
module CreationCalls {
  import opened Platforms
  import opened Syntax
  import opened Parsing
  import opened Evaluation
  import opened Formulas
  import opened Filters
  import opened FilterLiterals
  import opened FilterConditions
  import opened CreationDefaults
  import opened CreationSound
  import opened CreationMistakes
  import opened Printing

  const TEXT_METHODS := ["contains", "startsWith", "endsWith"]

  predicate StartsWith(text: string, query: string) { |query| <= |text| && text[..|query|] == query }

  predicate EndsWith(text: string, query: string) { |query| <= |text| && text[|text| - |query|..] == query }

  predicate Includes(text: string, query: string) {
    exists i :: 0 <= i <= |text| && StartsWith(text[i..], query)
  }

  /** What the built-in answers: `contains` folds case and is false of an empty query. */
  predicate TextMethod(p: Platform, test: string, text: string, query: string) {
    if test == "contains" then query != "" && Includes(p.lower(text), p.lower(query))
    else if test == "startsWith" then StartsWith(text, query)
    else EndsWith(text, query)
  }

  /** The methods take one text and answer so. */
  ghost predicate TextLaws(p: Platform) {
    forall test, text {:trigger p.find(test, Some(Str(text)))} :: test in TEXT_METHODS ==>
      var found := p.find(test, Some(Str(text)));
      && found.Some? && found.value.parameters == [Parameter(["string"], false, false)]
      && forall query {:trigger TextMethod(p, test, text, query)} ::
           found.value.invoke([Str(query)], Some(Str(text))) == Good(Bool(TextMethod(p, test, text, query)))
  }

  /** `name.method("query")`. */
  function TextCall(name: string, test: string, query: string): Expr {
    Expr.Call(Member(Identifier(name), Literal(Str(test)), false), [Literal(Str(query))])
  }

  /** Of the text itself every method is true, but `contains` of nothing. */
  lemma {:induction false} OwnText(p: Platform, test: string, text: string)
    requires test in TEXT_METHODS
    ensures TextMethod(p, test, text, text) <==> !(test == "contains" && text == "")
  {
    var folded := p.lower(text);
    assert folded[0..] == folded && StartsWith(folded[0..], folded);
    assert text[|text| - |text|..] == text;
  }

  lemma {:induction false} CallInfers(p: Platform, x: Host, name: string, test: string, query: string)
    requires TakenName(name) && test in TEXT_METHODS
    ensures InferExpression(p, x, NO_HINTS, TextCall(name, test, query)) == Hints(map[name := TextLit(query)], None, None, false)
  {
    assert CallHints(p, x, NO_HINTS, Identifier(name), Literal(Str(test)), [Literal(Str(query))])
        == Assign(p, x, NO_HINTS, Id(Normalize(name)), TextLit(query));
    var id := Id(Normalize(name));
    assert "note" + "." == "note." && id == "note." + name && id[..5] == "note." && id[5..] == name && id[0] == 'n';
  }

  lemma {:induction false} CallSteps(c: Config, name: string, test: string, text: string, query: string)
    requires TextLaws(c.platform) && test in TEXT_METHODS
    ensures var e := TextCall(name, test, query);
            && Takes(c, e, [], [], Evaluate(Identifier(name), []))
            && Takes(c, e, [], [Str(text)], Evaluate(Literal(Str(query)), []))
            && Takes(c, e, [], [Str(text), Str(query)], Return(Good(Bool(TextMethod(c.platform, test, text, query)))))
  {
    var one, parameters := [Str(query)], [Parameter(["string"], false, false)];
    assert c.platform.find(test, Some(Str(text))).value.parameters == parameters;
    assert [Str(text), Str(query)][1..] == one && one[1..] == [] && one[..0] == [] && [Str(text)][1..] == [];
    assert ScanArguments(parameters, []) == Position(0);
    assert "string" in parameters[0].types && TypeName(Str(query)) == "string";
    assert ScanArguments(parameters, one) == Position(1);
    assert parameters[1..] == [];
  }

  /** The call on a row whose property is a text. */
  lemma {:induction false} CallJudged(c: Config, note: seq<Field>, name: string, test: string, text: string, query: string, levels: nat, budget: nat)
    requires TextLaws(c.platform) && test in TEXT_METHODS && c.platform.lower(name) !in NAMESPACES && NewRow(c, note)
    requires OwnMember(c.platform, note, name) == Str(text) && levels >= 2 && budget >= 3
    ensures Judge(c, levels, budget, Compiled(TextCall(name, test, query)))
         == if TextMethod(c.platform, test, text, query) then Holds else Fails
  {
    var e, result := TextCall(name, test, query), Bool(TextMethod(c.platform, test, text, query));
    CallSteps(c, name, test, text, query);
    SubjectGives(c, note, name, text, levels - 1, budget - 1);
    LiteralGives(c, Str(query), levels - 1, budget - 2);
    TwoSteps(c, e, Identifier(name), Literal(Str(query)), Str(text), Str(query), result, levels, budget);
  }

  lemma {:induction false} SubjectGives(c: Config, note: seq<Field>, name: string, text: string, levels: nat, budget: nat)
    requires c.platform.lower(name) !in NAMESPACES && NewRow(c, note) && OwnMember(c.platform, note, name) == Str(text)
    requires levels > 0 && budget > 0
    ensures Gives(c, Identifier(name), levels, budget, Str(text))
  {
    assert Unfold(c, Identifier(name), [], levels, budget) == Spent(Yields(Str(text)), budget - 1);
  }

  lemma {:induction false} LiteralGives(c: Config, v: Value, levels: nat, budget: nat)
    requires levels > 0 && budget > 0
    ensures Gives(c, Literal(v), levels, budget, v)
  {
    assert Unfold(c, Literal(v), [], levels, budget) == Spent(Yields(v), budget - 1);
  }

  lemma {:induction false} TwoSteps(c: Config, e: Expr, a: Expr, b: Expr, va: Value, vb: Value, result: Value, levels: nat, budget: nat)
    requires levels >= 2 && budget >= 3
    requires Gives(c, a, levels - 1, budget - 1, va) && Gives(c, b, levels - 1, budget - 2, vb)
    requires Takes(c, e, [], [], Evaluate(a, [])) && Takes(c, e, [], [va], Evaluate(b, []))
    requires Takes(c, e, [], [va, vb], Return(Good(result)))
    ensures Unfold(c, e, [], levels, budget).outcome == Yields(result)
  {
    var end := Spent(Yields(result), budget - 3);
    assert [] + [va] == [va] && [va] + [vb] == [va, vb];
    LastStep(c, e, [va, vb], result, levels - 1, budget - 3);
    OneStep(c, e, [va], b, vb, levels - 1, budget - 2, end);
    OneStep(c, e, [], a, va, levels - 1, budget - 1, end);
    Starts(c, e, levels, budget, end);
  }

  /** The expression is that value for one unit of budget; unfolded only on demand, as the next. */
  ghost predicate Gives(c: Config, tree: Expr, levels: nat, budget: nat, v: Value) {
    budget > 0 && forall t {:trigger Unfold(c, t, [], levels, budget)} :: t == tree ==> Unfold(c, t, [], levels, budget) == Spent(Yields(v), budget - 1)
  }

  ghost predicate Leads(c: Config, e: Expr, history: seq<Value>, levels: nat, budget: nat, end: Spent) {
    forall h {:trigger UnfoldFrom(c, e, [], h, levels, budget)} :: h == history ==> UnfoldFrom(c, e, [], h, levels, budget) == end
  }

  lemma {:induction false} Starts(c: Config, e: Expr, levels: nat, budget: nat, end: Spent)
    requires levels > 0 && budget > 0 && Leads(c, e, [], levels - 1, budget - 1, end)
    ensures Unfold(c, e, [], levels, budget) == end
  {
    assert UnfoldFrom(c, e, [], [], levels - 1, budget - 1) == end;
  }

  lemma {:induction false} LastStep(c: Config, e: Expr, history: seq<Value>, result: Value, levels: nat, budget: nat)
    requires Takes(c, e, [], history, Return(Good(result)))
    ensures Leads(c, e, history, levels, budget, Spent(Yields(result), budget))
  {
  }

  lemma {:induction false} OneStep(c: Config, e: Expr, history: seq<Value>, child: Expr, v: Value, levels: nat, budget: nat, end: Spent)
    requires budget > 0 && Takes(c, e, [], history, Evaluate(child, [])) && Gives(c, child, levels, budget, v)
    requires Leads(c, e, history + [v], levels, budget - 1, end)
    ensures Leads(c, e, history, levels, budget, end)
  {
    assert Unfold(c, child, [], levels, budget) == Spent(Yields(v), budget - 1);
  }

  lemma {:induction false} CarriedText(p: Platform, note: seq<Field>, name: string, text: string)
    requires Carries(p, note, map[name := TextLit(text)])
    ensures OwnMember(p, note, name) == Str(text)
  {
    var fields := map[name := TextLit(text)];
    assert name in fields;
    var v: Lit :| Finite(p, v) && SameJson(p, v, fields[name]) && OwnMember(p, note, name) == ToValue(v);
  }

  /** A row on which the name is the text. */
  function TextRow(p: Platform, name: string, text: string): Config {
    Config(p, Row(Obj([Field(name, Str(text))]), Obj([Field("path", Str("a.md"))]), Null, _ => None), [])
  }

  lemma {:induction false} TextRowCarries(p: Platform, name: string, text: string)
    ensures QueryRow(TextRow(p, name, text), p, [Field(name, Str(text))])
    ensures Carries(p, [Field(name, Str(text))], map[name := TextLit(text)])
  {
    var note := [Field(name, Str(text))];
    assert Keys(note) == [name] && name in Keys(note);
    assert OwnMember(p, note, name) == ToValue(TextLit(text));
    SameJsonRefl(p, TextLit(text));
  }

  /** The text inferred from `contains`, `startsWith` or `endsWith` gives no warning, and
      satisfies the call on every row, but for `contains` of the empty text, which fails. */
  lemma {:induction false} TextCallExact(p: Platform, x: Host, name: string, test: string, text: string)
    requires TextLaws(p) && TakenName(name) && p.lower(name) !in NAMESPACES && test in TEXT_METHODS
    ensures var e := TextCall(name, test, text);
            var h := InferExpression(p, x, NO_HINTS, e);
            !h.warned && (Satisfies(p, h.fields, e, 3) <==> !(test == "contains" && text == ""))
  {
    var e, fields := TextCall(name, test, text), map[name := TextLit(text)];
    CallInfers(p, x, name, test, text);
    OwnText(p, test, text);
    forall c, note, levels: nat, budget: nat | QueryRow(c, p, note) && levels >= 2 && budget >= 3 && Carries(p, note, fields)
      ensures Judge(c, levels, budget, Compiled(e)) == if TextMethod(p, test, text, text) then Holds else Fails
    {
      CarriedText(p, note, name, text);
      CallJudged(c, note, name, test, text, text, levels, budget);
    }
    TextRowCarries(p, name, text);
    assert QueryRow(TextRow(p, name, text), p, [Field(name, Str(text))]);
    assert Judge(TextRow(p, name, text), 2, 3, Compiled(e)) == if TextMethod(p, test, text, text) then Holds else Fails;
  }

  // ----- a platform with the methods

  function TextAnswer(test: string, args: seq<Value>, subject: Option<Value>): Checked {
    if |args| == 1 && args[0].Str? && subject.Some? && subject.value.Str? then Good(Bool(TextMethod(ASCII, test, subject.value.text, args[0].text)))
    else Bad(Type)
  }

  const TEXTUAL: Platform := ASCII.(find := (name, subject) =>
    if name in TEXT_METHODS then Some(Definition([Parameter(["string"], false, false)], (args, subject) => TextAnswer(name, args, subject))) else None)

  lemma {:induction false} TextLawsMet()
    ensures TextLaws(TEXTUAL)
  {
    forall test, text, query | test in TEXT_METHODS
      ensures TEXTUAL.find(test, Some(Str(text))).value.invoke([Str(query)], Some(Str(text))) == Good(Bool(TextMethod(TEXTUAL, test, text, query)))
    {
      assert TextAnswer(test, [Str(query)], Some(Str(text))) == Good(Bool(TextMethod(ASCII, test, text, query)));
      assert TEXTUAL.lower(text) == ASCII.lower(text) && TEXTUAL.lower(query) == ASCII.lower(query);
    }
  }
}
