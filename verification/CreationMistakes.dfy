/** Where inferred properties do not satisfy the filter they came from. */
module CreationMistakes {
  import opened Platforms
  import opened Syntax
  import opened Parsing
  import opened Evaluation
  import opened Formulas
  import opened Filters
  import opened FilterExact
  import opened FilterParsing
  import opened Printing
  import opened RoundTrip
  import opened FilterLiterals
  import opened FilterConditions
  import opened CreationDefaults
  import opened CreationSound

  // ----- bare names

  /** A name that inference takes for a note property. */
  predicate TakenName(name: string) {
    name !in ["file", "formula", "this"] && Normalize(name) == Ref("note", name) && name !in RESERVED
  }

  const NAMESPACES := ["note", "file", "this", "formula"]

  /** A new row, whose file is something: a query's file is a namespace, always true. */
  ghost predicate QueryRow(c: Config, p: Platform, note: seq<Field>) {
    c.platform == p && NewRow(c, note) && Truthy(p, c.row.file)
  }

  /** Every row with the properties passes the expression, in `steps` steps or more. */
  ghost predicate Satisfies(p: Platform, fields: map<string, Lit>, e: Expr, steps: nat) {
    forall c, note, levels: nat, budget: nat {:trigger QueryRow(c, p, note), Judge(c, levels, budget, Compiled(e))} ::
      QueryRow(c, p, note) && levels >= 2 && budget >= steps && Carries(p, note, fields) ==> Judge(c, levels, budget, Compiled(e)) == Holds
  }

  lemma {:induction false} NameTaken(p: Platform, x: Host, name: string)
    requires TakenName(name)
    ensures InferExpression(p, x, NO_HINTS, Identifier(name)) == Hints(map[name := FlagLit(true)], None, None, false)
    ensures InferExpression(p, x, NO_HINTS, Expr.Unary("!", Identifier(name))) == Hints(map[name := FlagLit(false)], None, None, false)
  {
    var id := Id(Normalize(name));
    assert "note" + "." == "note." && id == "note." + name;
    assert id[..5] == "note." && id[5..] == name && id[0] == 'n';
  }

  /** What a bare name and its negation evaluate to. */
  lemma {:induction false} NameJudged(c: Config, name: string, levels: nat, budget: nat)
    requires levels >= 2 && budget >= 2
    ensures var v := Resolve(c.platform, c.row, [], name);
            && Judge(c, levels, budget, Compiled(Identifier(name))) == (if Truthy(c.platform, v) then Holds else Fails)
            && Judge(c, levels, budget, Compiled(Expr.Unary("!", Identifier(name))))
               == if !v.Null? && !Truthy(c.platform, v) then Holds else Fails
  {
    var p, e := c.platform, Identifier(name);
    var v := Resolve(p, c.row, [], name);
    assert Gives(c, e, levels, budget, v) && Gives(c, e, levels - 1, budget - 1, v);
    var result := if v.Null? then Null else Bool(!Truthy(p, v));
    OneChild(c, Expr.Unary("!", e), e, levels, budget, v, result);
  }

  /** A row on which the name is the given flag and there is no embedding file. */
  function Witness(p: Platform, name: string, truth: bool): Config {
    Config(p, Row(Obj([Field(name, Bool(truth))]), Obj([Field("path", Str("a.md"))]), Null, _ => None), [])
  }

  lemma {:induction false} WitnessCarries(p: Platform, name: string, truth: bool)
    ensures QueryRow(Witness(p, name, truth), p, [Field(name, Bool(truth))])
    ensures Carries(p, [Field(name, Bool(truth))], map[name := FlagLit(truth)])
  {
    var note := [Field(name, Bool(truth))];
    assert Keys(note) == [name] && name in Keys(note);
    assert OwnMember(p, note, name) == ToValue(FlagLit(truth));
    SameJsonRefl(p, FlagLit(truth));
  }

  lemma {:induction false} CarriedFlag(p: Platform, note: seq<Field>, name: string, truth: bool)
    requires Carries(p, note, map[name := FlagLit(truth)])
    ensures OwnMember(p, note, name) == Bool(truth) && note != []
  {
    var fields := map[name := FlagLit(truth)];
    assert name in fields;
    var v: Lit :| Finite(p, v) && SameJson(p, v, fields[name]) && OwnMember(p, note, name) == ToValue(v);
  }

  /** The name or its negation, as the truth of its property has it. */
  function Flagged(name: string, truth: bool): Expr { if truth then Identifier(name) else Expr.Unary("!", Identifier(name)) }

  lemma {:induction false} NameHolds(p: Platform, name: string, truth: bool)
    requires p.lower(name) !in NAMESPACES || (truth && p.lower(name) != "this")
    ensures Satisfies(p, map[name := FlagLit(truth)], Flagged(name, truth), 2)
  {
    forall c, note, levels: nat, budget: nat
      | QueryRow(c, p, note) && levels >= 2 && budget >= 2 && Carries(p, note, map[name := FlagLit(truth)])
      ensures Judge(c, levels, budget, Compiled(Flagged(name, truth))) == Holds
    {
      CarriedFlag(p, note, name, truth);
      NameJudged(c, name, levels, budget);
    }
  }

  lemma {:induction false} NameFails(p: Platform, name: string, truth: bool)
    requires p.lower(name) in NAMESPACES && (truth ==> p.lower(name) == "this")
    ensures !Satisfies(p, map[name := FlagLit(truth)], Flagged(name, truth), 2)
  {
    var c := Witness(p, name, truth);
    WitnessCarries(p, name, truth);
    NameJudged(c, name, 2, 2);
    assert Judge(c, 2, 2, Compiled(Flagged(name, truth))) != Holds && QueryRow(c, p, [Field(name, Bool(truth))]);
  }

  /** `!name` is satisfied by the property inferred for it, on every row, exactly when
      the evaluator does not take the name, in any case, for one of its namespaces. */
  lemma {:induction false} NegatedNameExact(p: Platform, x: Host, name: string)
    requires TakenName(name)
    ensures var e := Expr.Unary("!", Identifier(name));
            Satisfies(p, InferExpression(p, x, NO_HINTS, e).fields, e, 2) <==> p.lower(name) !in NAMESPACES
  {
    NameTaken(p, x, name);
    if p.lower(name) !in NAMESPACES { NameHolds(p, name, false); } else { NameFails(p, name, false); }
  }

  /** A bare name is satisfied exactly when it is no spelling of `this`, which may be
      nothing; the other namespaces are always true. */
  lemma {:induction false} BareNameExact(p: Platform, x: Host, name: string)
    requires TakenName(name)
    ensures var e := Identifier(name);
            Satisfies(p, InferExpression(p, x, NO_HINTS, e).fields, e, 2) <==> p.lower(name) != "this"
  {
    NameTaken(p, x, name);
    if p.lower(name) != "this" { NameHolds(p, name, true); } else { NameFails(p, name, true); }
  }

  /** `!note` and `!File` are taken for properties, and fail on every row that has them. */
  lemma {:induction false} NamespacesAreMistaken(c: Config, x: Host, note: seq<Field>, name: string)
    requires name in ["note", "File"] && c.platform.lower("note") == "note" && c.platform.lower("File") == "file"
    requires QueryRow(c, c.platform, note) && Carries(c.platform, note, InferExpression(c.platform, x, NO_HINTS, Expr.Unary("!", Identifier(name))).fields)
    ensures !InferExpression(c.platform, x, NO_HINTS, Expr.Unary("!", Identifier(name))).warned
    ensures Judge(c, 256, 100, Compiled(Expr.Unary("!", Identifier(name)))) == Fails
  {
    assert TakenName(name);
    NamespaceMistaken(c, x, note, name, 256, 100);
  }

  lemma {:induction false} NamespaceMistaken(c: Config, x: Host, note: seq<Field>, name: string, levels: nat, budget: nat)
    requires TakenName(name) && c.platform.lower(name) in ["note", "file"] && levels >= 2 && budget >= 2
    requires QueryRow(c, c.platform, note) && Carries(c.platform, note, InferExpression(c.platform, x, NO_HINTS, Expr.Unary("!", Identifier(name))).fields)
    ensures !InferExpression(c.platform, x, NO_HINTS, Expr.Unary("!", Identifier(name))).warned
    ensures Judge(c, levels, budget, Compiled(Expr.Unary("!", Identifier(name)))) == Fails
  {
    NameTaken(c.platform, x, name);
    CarriedFlag(c.platform, note, name, false);
    NameJudged(c, name, levels, budget);
  }

  // ----- an `or` without a leaf in its first branch

  const ID: string := "_id"
  const OK: string := "ok"

  function EmptyAnd(): Stored { Mapping(["and"], [Sequence([])]) }

  function Unanchored(): Stored { Mapping(["or"], [Sequence([EmptyAnd(), Text(ID)])]) }

  lemma {:induction false} NameParses(p: LawfulPlatform, name: string)
    requires name == ID || name == OK
    ensures ParseText(p, name) == Some(Identifier(name))
  {
    assert p.letter('i') && p.letter('d') && p.letter('o') && p.letter('k');
    PrintedParses(p, Identifier(name));
  }

  lemma {:induction false} PairReads(p: Platform, a: Stored, b: Stored, f: Filter, g: Filter, depth: nat)
    requires ParseFilter(p, a, depth) == Some(f) && ParseFilter(p, b, depth) == Some(g)
    ensures ParseFilters(p, [a, b], depth) == Some([f, g])
  {
    assert [a, b][1..] == [b] && [b][1..] == [] && [f] + ([g] + []) == [f, g];
    assert ParseFilters(p, [b], depth) == Some([g] + []);
  }

  lemma {:induction false} LeafReads(p: Platform, name: string, depth: nat)
    requires depth <= MAX_FILTER_DEPTH && ParseText(p, name) == Some(Identifier(name))
    ensures ParseFilter(p, Text(name), depth) == Some(Test(Compiled(Identifier(name))))
  {
  }

  lemma {:induction false} UnanchoredReads(p: Platform)
    requires ParseText(p, ID) == Some(Identifier(ID))
    ensures ParseFilter(p, Unanchored(), 0) == Some(Group(Or, [Group(And, []), Test(Compiled(Identifier(ID)))]))
  {
    assert ParseFilters(p, [], 2) == Some([]);
    assert ParseFilter(p, EmptyAnd(), 1) == Some(Group(And, []));
    LeafReads(p, ID, 1);
    PairReads(p, EmptyAnd(), Text(ID), Group(And, []), Test(Compiled(Identifier(ID))), 1);
  }

  lemma {:induction false} PairCollects(kind: Kind, f: Filter, g: Filter)
    ensures Collect(kind, [f, g]) == (if Optimize(f).None? then [] else Splice(kind, Optimize(f).value))
                                   + (if Optimize(g).None? then [] else Splice(kind, Optimize(g).value))
  {
    assert [f, g][1..] == [g] && [g][1..] == [];
    assert Collect(kind, [g]) == if Optimize(g).None? then [] else Splice(kind, Optimize(g).value) + [];
  }

  lemma {:induction false} UnanchoredOptimized(a: Body, b: Body)
    ensures Optimize(Group(And, [Group(Or, [Group(And, []), Test(a)]), Test(b)])) == Some(Group(And, [Test(a), Test(b)]))
  {
    assert Optimize(Group(And, [])) == None;
    PairCollects(Or, Group(And, []), Test(a));
    var either := Group(Or, [Group(And, []), Test(a)]);
    assert Collect(Or, either.children) == [] + [Test(a)] == [Test(a)];
    assert Optimize(either) == Some(Test(a));
    assert [Test(a)] + [Test(b)] == [Test(a), Test(b)];
    PairCollects(And, Group(Or, [Group(And, []), Test(a)]), Test(b));
  }

  lemma {:induction false} OrInfers(p: Platform, x: Host, a: Stored, b: Stored)
    requires InferFilter(p, x, NO_HINTS, a) == NO_HINTS && InferFilter(p, x, NO_HINTS, b) == Warn(NO_HINTS)
    ensures InferFilter(p, x, NO_HINTS, Mapping(["or"], [Sequence([a, b])])) == NO_HINTS
  {
    assert [a, b][1..] == [b] && [b][1..] == [];
    assert InferEach(p, x, [b]) == [Warn(NO_HINTS)] + [];
    var branches := InferEach(p, x, [a, b]);
    assert branches == [NO_HINTS, Warn(NO_HINTS)] && branches[1..] == [Warn(NO_HINTS)];
    assert Chosen(branches) == 0;
    assert (NO_HINTS.fields - RESERVED) + NO_HINTS.fields == map[];
  }

  lemma {:induction false} ReservedWarns(p: Platform, x: Host)
    ensures InferExpression(p, x, NO_HINTS, Identifier(ID)) == Warn(NO_HINTS)
  {
    var id := Id(Normalize(ID));
    assert "note" + "." == "note." && id == "note." + ID && id[..5] == "note." && id[5..] == ID && id[0] == 'n';
  }

  lemma {:induction false} TextInfers(p: Platform, x: Host, h: Hints, name: string)
    requires ParseText(p, name) == Some(Identifier(name))
    ensures InferFilter(p, x, h, Text(name)) == InferExpression(p, x, h, Identifier(name))
  {
  }

  lemma {:induction false} ViewInfers(p: Platform, x: Host)
    requires ParseText(p, OK) == Some(Identifier(OK))
    ensures InferFilter(p, x, NO_HINTS, Text(OK)) == Hints(map[OK := FlagLit(true)], None, None, false)
  {
    NameTaken(p, x, OK);
    TextInfers(p, x, NO_HINTS, OK);
  }

  lemma {:induction false} RootInfers(p: Platform, x: Host)
    requires ParseText(p, ID) == Some(Identifier(ID))
    ensures InferFilter(p, x, NO_HINTS, Unanchored()) == NO_HINTS
  {
    assert InferFilter(p, x, NO_HINTS, EmptyAnd()) == NO_HINTS;
    ReservedWarns(p, x);
    TextInfers(p, x, NO_HINTS, ID);
    OrInfers(p, x, EmptyAnd(), Text(ID));
  }

  lemma {:induction false} BothInfer(p: Platform, x: Host, a: Stored, b: Stored, h: Hints)
    requires InferFilter(p, x, NO_HINTS, a) == NO_HINTS && InferFilter(p, x, NO_HINTS, b) == h
    ensures InferView(p, x, Some(a), Some(b), []) == h
  {
  }

  lemma {:induction false} FirstFails(c: Config, a: Body, b: Body)
    requires Judge(c, 256, 100, a) == Fails
    ensures Run(Group(And, [Test(a), Test(b)]), Judging(c, 256, 100), ()).0 == Fails
  {
    assert Run(Test(a), Judging(c, 256, 100), ()).0 == Fails;
  }

  /** The condition on `or` is needed. `or` of an empty `and` and a reserved name infers
      nothing and gives no warning; the optimizer drops the empty `and`, and the row fails. */
  lemma {:induction false} UnanchoredSlips(c: Config, x: Host, note: seq<Field>)
    requires IsLawful(c.platform) && NewRow(c, note) && note == [Field(OK, Bool(true))]
    requires c.platform.lower(ID) == ID && c.platform.lower(OK) == OK
    ensures var h := InferView(c.platform, x, Some(Unanchored()), Some(Text(OK)), []);
            !h.warned && Carries(c.platform, note, h.fields)
    ensures var f := EffectiveFilter(c.platform, Unanchored(), Text(OK));
            f.Accept? && RunOptional(f.filter, Judging(c, 256, 100), ()).0 == Fails
  {
    NameParses(c.platform, ID);
    NameParses(c.platform, OK);
    RootInfers(c.platform, x);
    ViewInfers(c.platform, x);
    BothInfer(c.platform, x, Unanchored(), Text(OK), Hints(map[OK := FlagLit(true)], None, None, false));
    WitnessCarries(c.platform, OK, true);
    UnanchoredEffective(c.platform);
    ReservedFails(c, note);
    FirstFails(c, Compiled(Identifier(ID)), Compiled(Identifier(OK)));
  }

  lemma {:induction false} UnanchoredEffective(p: Platform)
    requires ParseText(p, ID) == Some(Identifier(ID)) && ParseText(p, OK) == Some(Identifier(OK))
    ensures EffectiveFilter(p, Unanchored(), Text(OK))
         == Accept(Some(Group(And, [Test(Compiled(Identifier(ID))), Test(Compiled(Identifier(OK)))])))
  {
    UnanchoredReads(p);
    LeafReads(p, OK, 0);
    EffectiveConjoins(p, Unanchored(), Text(OK));
    UnanchoredOptimized(Compiled(Identifier(ID)), Compiled(Identifier(OK)));
  }

  lemma {:induction false} ReservedFails(c: Config, note: seq<Field>)
    requires NewRow(c, note) && note == [Field(OK, Bool(true))] && c.platform.lower(ID) == ID && c.platform.lower(OK) == OK
    ensures Judge(c, 256, 100, Compiled(Identifier(ID))) == Fails
  {
    assert Keys(note) == [OK] && OwnMember(c.platform, note, ID) == Null;
    NameJudged(c, ID, 256, 100);
  }

  // ----- a host whose comparisons throw, as the source's do

  function Throwing(operator: string, a: Value, b: Value): Checked {
    if operator == "==" then Good(Bool(a == b))
    else if a.Null? || b.Null? then Good(Null)
    else if !SavedValue(a) || !SavedValue(b) then Bad(Unsupported)
    else if a.Num? && b.Num? then
      var n, k := a.number.code, b.number.code;
      Good(Bool(if operator == "<" then n < k else if operator == ">" then n > k else if operator == "<=" then n <= k else n >= k))
    else Good(Bool(false))
  }

  const STRICT: Platform := ASCII.(comparison := Throwing)

  const NEXT_DIGIT: Host := Host(_ => None, _ => true,
                                 (n: Number) => if n.code < 9 then Some(Number(n.code + 1)) else None,
                                 (n: Number) => if n.code > 0 then Some(Number(n.code - 1)) else None)

  lemma {:induction false} DigitsApart(n: Number, k: Number)
    requires STRICT.finite(n) && STRICT.showNumber(n) == STRICT.showNumber(k)
    ensures n == k
  {
    assert STRICT.showNumber(n)[0] == ('0' as int + n.code) as char;
  }

  lemma {:induction false} SameIsEqual(a: Lit, b: Lit)
    requires Finite(STRICT, a) && Finite(STRICT, b) && SameJson(STRICT, a, b)
    ensures a == b
    decreases a
  {
    if a.NumberLit? { DigitsApart(a.number, b.number); }
    if a.ListLit? {
      forall i | 0 <= i < |a.items| ensures a.items[i] == b.items[i] { SameIsEqual(a.items[i], b.items[i]); }
      assert a.items == b.items;
    }
  }

  lemma {:induction false} EqualMet(a: Lit, b: Lit)
    requires Finite(STRICT, a) && Finite(STRICT, b) && SameJson(STRICT, a, b)
    ensures STRICT.comparison("==", ToValue(a), ToValue(b)) == STRICT.comparison("==", ToValue(b), ToValue(a)) == Good(Bool(true))
  {
    SameIsEqual(a, b);
  }

  lemma {:induction false} OrderMet(n: Number, k: Number)
    requires STRICT.finite(n) && STRICT.finite(k)
    ensures STRICT.comparison("<", Num(n), Num(k)) == STRICT.comparison(">", Num(k), Num(n)) == Good(Bool(n.code < k.code))
    ensures STRICT.comparison("<=", Num(n), Num(k)) == STRICT.comparison(">=", Num(k), Num(n)) == Good(Bool(n.code <= k.code))
  {
  }

  lemma {:induction false} BoundsMet()
    ensures BoundsAgree(STRICT, NEXT_DIGIT)
  {
    forall n, k | STRICT.finite(n) && STRICT.finite(k)
      ensures STRICT.showNumber(n) == STRICT.showNumber(k) ==> n == k
      ensures STRICT.comparison("<", Num(n), Num(k)) == STRICT.comparison(">", Num(k), Num(n)) == Good(Bool(n.code < k.code))
      ensures STRICT.comparison("<=", Num(n), Num(k)) == STRICT.comparison(">=", Num(k), Num(n)) == Good(Bool(n.code <= k.code))
    {
      OrderMet(n, k);
      if STRICT.showNumber(n) == STRICT.showNumber(k) { DigitsApart(n, k); }
    }
  }

  lemma {:induction false} EqualityMet()
    ensures EqualityAgrees(STRICT)
  {
    forall a: Lit, b: Lit | Finite(STRICT, a) && Finite(STRICT, b) && SameJson(STRICT, a, b)
      ensures STRICT.comparison("==", ToValue(a), ToValue(b)) == Good(Bool(true))
      ensures STRICT.comparison("==", ToValue(b), ToValue(a)) == Good(Bool(true))
    {
      EqualMet(a, b);
    }
  }

  lemma {:induction false} TotalMet()
    ensures Total(STRICT)
  {
  }

  /** What soundness asks of comparisons is met by a host whose comparisons throw for
      a namespace. */
  lemma {:induction false} ComparesIsMet()
    ensures Compares(STRICT, NEXT_DIGIT)
    ensures STRICT.comparison("<", FormulaNamespace, Num(Number(3))) == Bad(Unsupported)
  {
    EqualityMet();
    TotalMet();
    BoundsMet();
  }
}
