/** Visual filter conditions: the text they are stored as, and reading it back. */
module FilterConditions {
  import opened Platforms
  import opened Syntax
  import opened Lexing
  import opened Parsing
  import opened ParseRules
  import opened Printing
  import opened LexPrinted
  import opened ParsePrinted
  import opened RoundTrip
  import opened FilterLiterals

  // ----- operators

  datatype Test =
    | StartsWith | EndsWith | IsEmpty | Contains | ContainsAny | ContainsAll | LinksTo | Matches
    | HasLink | InFolder | HasTag | HasProperty

  datatype Comparison = Equal | Unequal | Less | AtMost | Greater | AtLeast

  datatype Operator = Compare(comparison: Comparison) | Unset | Assigned | Call(test: Test, inverse: bool)

  datatype Arity = Nullary | Unary | Variadic

  function MethodName(t: Test): string {
    match t
    case StartsWith => "startsWith"
    case EndsWith => "endsWith"
    case IsEmpty => "isEmpty"
    case Contains => "contains"
    case ContainsAny => "containsAny"
    case ContainsAll => "containsAll"
    case LinksTo => "linksTo"
    case Matches => "matches"
    case HasLink => "hasLink"
    case InFolder => "inFolder"
    case HasTag => "hasTag"
    case HasProperty => "hasProperty"
  }

  function ArityOf(t: Test): Arity {
    if t.IsEmpty? then Nullary
    else if t.ContainsAny? || t.ContainsAll? || t.HasTag? then Variadic
    else Arity.Unary
  }

  /** The methods of files. */
  predicate OnFile(t: Test) { t.HasLink? || t.InFolder? || t.HasTag? || t.HasProperty? }

  function Symbols(c: Comparison): string {
    match c
    case Equal => "=="
    case Unequal => "!="
    case Less => "<"
    case AtMost => "<="
    case Greater => ">"
    case AtLeast => ">="
  }

  const TESTS := [StartsWith, EndsWith, IsEmpty, Contains, ContainsAny, ContainsAll, LinksTo, Matches,
                  HasLink, InFolder, HasTag, HasProperty]
  const COMPARISONS := [Equal, Unequal, Less, AtMost, Greater, AtLeast]

  function TestNamed(name: string, tests: seq<Test>): Option<Test> {
    if tests == [] then None
    else if MethodName(tests[0]) == name then Some(tests[0])
    else TestNamed(name, tests[1..])
  }

  function ComparisonNamed(symbol: string, all: seq<Comparison>): Option<Comparison> {
    if all == [] then None
    else if Symbols(all[0]) == symbol then Some(all[0])
    else ComparisonNamed(symbol, all[1..])
  }

  lemma {:induction false} NamesFound(t: Test, c: Comparison)
    ensures TestNamed(MethodName(t), TESTS) == Some(t) && ComparisonNamed(Symbols(c), COMPARISONS) == Some(c)
  {
    MethodsDiffer();
    FindTest(t, TESTS);
    FindComparison(c, COMPARISONS);
  }

  lemma {:induction false} MethodsDiffer()
    ensures forall t, u :: MethodName(t) == MethodName(u) ==> t == u
  {
    forall t, u | MethodName(t) == MethodName(u) ensures t == u {
      var a, b := MethodName(t), MethodName(u);
      assert |a| == |b| && a[0] == b[0] && a[|a| - 1] == b[|b| - 1] && (|a| > 3 ==> a[3] == b[3]);
    }
  }

  lemma {:induction false} FindTest(t: Test, tests: seq<Test>)
    requires t in tests && forall u, v :: MethodName(u) == MethodName(v) ==> u == v
    ensures TestNamed(MethodName(t), tests) == Some(t)
  {
    if tests[0] != t { FindTest(t, tests[1..]); }
  }

  lemma {:induction false} FindComparison(c: Comparison, all: seq<Comparison>)
    requires c in all
    ensures ComparisonNamed(Symbols(c), all) == Some(c)
  {
    if all[0] != c { FindComparison(c, all[1..]); }
  }

  // ----- conditions

  datatype ValueType = AsText | AsNumber | AsBoolean | AsDate | AsDatetime | AsList | AsNull

  /** `operand` is present but undefined as `Some(None)`. */
  datatype Condition = Condition(
    property: string, operator: Operator, text: string, valueType: ValueType,
    values: Option<seq<string>>, operand: Option<Option<Lit>>, arguments: Option<seq<Lit>>)

  datatype Ref = Ref(space: string, name: string)

  const FILE := Ref("file", "file")

  predicate Starts(s: string, prefix: string) { |prefix| <= |s| && s[..|prefix|] == prefix }

  /** `normalizeBaseProperty`, split at its first dot. */
  function Normalize(property: string): Ref {
    if Starts(property, "note.") then Ref("note", property[5..])
    else if Starts(property, "file.") then Ref("file", property[5..])
    else if Starts(property, "formula.") then Ref("formula", property[8..])
    else if property == "file" then FILE
    else Ref("note", property)
  }

  function Id(r: Ref): string { r.space + "." + r.name }

  /** `propertyId`. */
  function PropertyId(property: string): Option<Ref> {
    if property == "" || Normalize(property).name == "" then None else Some(Normalize(property))
  }

  predicate IsDecimal(s: string) {
    IsNumeral(s) || (s != "" && (s[0] == '+' || s[0] == '-') && IsNumeral(s[1..]))
  }

  /** `JSON.parse` of the text of a list of filter values. */
  type Json = string -> Option<seq<Lit>>

  /** `legacyLiteral`. */
  function Legacy(p: Platform, json: Json, value: string, valueType: ValueType): Option<Lit> {
    match valueType
    case AsText => Some(TextLit(value))
    case AsDate => Some(TextLit(value))
    case AsDatetime => Some(TextLit(value))
    case AsNumber => if IsDecimal(value) && p.finite(p.toNumber(value)) then Some(NumberLit(p.toNumber(value))) else None
    case AsBoolean => if value == "true" || value == "false" then Some(FlagLit(value == "true")) else None
    case AsNull => if value == "" || value == "null" then Some(NullLit) else None
    case AsList =>
      match json(value)
      case None => None
      case Some(items) => if Encode(p, ListLit(items)).Some? then Some(ListLit(items)) else None
  }

  function One(v: Option<Lit>): Option<seq<Lit>> { if v.None? then None else Some([v.value]) }

  function Texts(values: seq<string>): seq<Lit> {
    seq(|values|, i requires 0 <= i < |values| => TextLit(values[i]))
  }

  /** `filterConditionValues`. */
  function Values(p: Platform, json: Json, c: Condition): Option<seq<Lit>> {
    match c.operator
    case Unset => Some([])
    case Assigned => Some([])
    case Call(t, _) =>
      if c.arguments.Some? then c.arguments
      else if ArityOf(t).Nullary? then Some([])
      else if c.values.Some? then Some(Texts(c.values.value))
      else One(Legacy(p, json, c.text, c.valueType))
    case Compare(_) =>
      if c.operand.Some? then One(c.operand.value) else One(Legacy(p, json, c.text, c.valueType))
  }

  // ----- writing

  /** What a condition comes down to. */
  datatype Plan =
    | Compared(ref: Ref, symbol: string, value: Lit)
    | Called(ref: Ref, test: Test, inverse: bool, args: seq<Lit>)

  predicate Admits(a: Arity, n: nat) {
    match a
    case Nullary => n == 0
    case Unary => n == 1
    case Variadic => n > 0
  }

  predicate AllTexts(values: seq<Lit>) { forall i :: 0 <= i < |values| ==> values[i].TextLit? }

  /** `serializeFilterCondition` up to its text; `None` is a thrown error. */
  function PlanOf(p: Platform, json: Json, c: Condition): Option<Plan> {
    match PropertyId(c.property)
    case None => None
    case Some(ref) =>
      if c.operator.Unset? then Some(Compared(ref, "==", NullLit))
      else if c.operator.Assigned? then Some(Compared(ref, "!=", NullLit))
      else
        match Values(p, json, c)
        case None => None
        case Some(values) =>
          if Encode(p, ListLit(values)).None? then None
          else
            match c.operator
            case Call(t, inverse) =>
              if OnFile(t) != (ref == FILE) || !Admits(ArityOf(t), |values|) || (OnFile(t) && !AllTexts(values)) then None
              else Some(Called(ref, t, inverse, values))
            case Compare(comparison) =>
              if |values| != 1 || ref == FILE then None else Some(Compared(ref, Symbols(comparison), values[0]))
            case _ => None
  }

  /** `file`, or the quoted property of its namespace. */
  function Receiver(ref: Ref): Expr {
    if ref == FILE then Identifier("file") else Member(Identifier(ref.space), Literal(Str(ref.name)), true)
  }

  function Callee(ref: Ref, t: Test): Expr { Member(Receiver(ref), Literal(Str(MethodName(t))), false) }

  function CallText(p: Platform, ref: Ref, t: Test, args: seq<Lit>): string {
    Render(p, Callee(ref, t)) + (['('] + (SpellAll(p, args) + [')']))
  }

  function PlanText(p: Platform, plan: Plan): string {
    match plan
    case Compared(ref, symbol, v) => Render(p, Receiver(ref)) + (" " + (symbol + (" " + Spell(p, v))))
    case Called(ref, t, inverse, args) => (if inverse then ['!'] else "") + CallText(p, ref, t, args)
  }

  function Serialize(p: Platform, json: Json, c: Condition): Option<string> {
    match PlanOf(p, json, c)
    case None => None
    case Some(plan) => Some(PlanText(p, plan))
  }

  // ----- reading

  function DecodeProperty(e: Expr): Option<string> {
    match e
    case Identifier(name) => Some(Id(Normalize(name)))
    case Member(Identifier(space), Literal(Str(name)), _) =>
      if space in ["note", "file", "formula"] then Some(Id(Ref(space, name))) else None
    case _ => None
  }

  function Scalar(p: Platform, property: string, operator: Operator, v: Lit): Condition {
    match v
    case NullLit =>
      if operator == Compare(Equal) then Condition(property, Unset, "", AsText, None, None, None)
      else if operator == Compare(Unequal) then Condition(property, Assigned, "", AsText, None, None, None)
      else Condition(property, operator, "null", AsNull, None, None, None)
    case ListLit(_) => Condition(property, operator, "", AsList, None, Some(Some(v)), None)
    case NumberLit(n) => Condition(property, operator, SpellNumber(p, n), AsNumber, None, None, None)
    case FlagLit(b) => Condition(property, operator, if b then "true" else "false", AsBoolean, None, None, None)
    case TextLit(s) => Condition(property, operator, s, AsText, None, None, None)
  }

  function TextsOf(values: seq<Lit>): seq<string>
    requires AllTexts(values)
  {
    seq(|values|, i requires 0 <= i < |values| => values[i].text)
  }

  function DecodeCall(p: Platform, property: string, t: Test, inverse: bool, args: seq<Expr>): Option<Condition> {
    if !Admits(ArityOf(t), |args|) then None
    else
      match DecodeLits(p, args, 0, MAX_NODES)
      case None => None
      case Some((values, _)) =>
        var operator := Operator.Call(t, inverse);
        if OnFile(t) then
          if property != Id(FILE) || !AllTexts(values) then None
          else
            Some(Condition(property, operator, if values == [] then "" else values[0].text, AsText,
                           Some(TextsOf(values)), None, None))
        else if property == Id(FILE) then None
        else if ArityOf(t).Nullary? then Some(Condition(property, operator, "", AsText, None, None, None))
        else if |values| == 1 && !values[0].ListLit? then Some(Scalar(p, property, operator, values[0]))
        else Some(Condition(property, operator, "", AsList, None, None, Some(values)))
  }

  /** `decodeFilterCondition`, on the tree. */
  function DecodeTree(p: Platform, whole: Expr): Option<Condition> {
    var inverse := whole.Unary? && whole.operator == "!";
    var e := if inverse then whole.operand else whole;
    match e
    case Call(Member(owner, Literal(Str(name)), _), args) =>
      var property, t := DecodeProperty(owner), TestNamed(name, TESTS);
      if property.None? || t.None? then None else DecodeCall(p, property.value, t.value, inverse, args)
    case Binary(symbol, left, right) =>
      if inverse then None
      else
        var property, c := DecodeProperty(left), ComparisonNamed(symbol, COMPARISONS);
        if property.None? || property.value == Id(FILE) || c.None? then None
        else
          (match DecodeLit(p, right, 0, MAX_NODES)
           case None => None
           case Some((v, _)) => Some(Scalar(p, property.value, Compare(c.value), v)))
    case _ => None
  }

  function Decode(p: Platform, source: string): Option<Condition> {
    match ParseText(p, source)
    case None => None
    case Some(e) => DecodeTree(p, e)
  }

  // ----- plans and their trees

  const SPACES := ["note", "file", "formula"]

  predicate ValidRef(r: Ref) { r.space in SPACES && r.name != "" }

  predicate ValidPlan(p: Platform, plan: Plan) {
    match plan
    case Compared(ref, symbol, v) =>
      ValidRef(ref) && Fits(p, ListLit([v]), 0, MAX_NODES)
      && (exists c :: c in COMPARISONS && Symbols(c) == symbol)
      && (ref == FILE ==> v == NullLit && (symbol == "==" || symbol == "!="))
    case Called(ref, t, _, args) =>
      ValidRef(ref) && Fits(p, ListLit(args), 0, MAX_NODES)
      && OnFile(t) == (ref == FILE) && Admits(ArityOf(t), |args|) && (OnFile(t) ==> AllTexts(args))
  }

  lemma {:induction false} NormalizeId(r: Ref)
    requires ValidRef(r)
    ensures Normalize(Id(r)) == r && PropertyId(Id(r)) == Some(r)
  {
    var s := Id(r);
    if r.space == "note" { assert s[..5] == "note." && s[5..] == r.name; }
    else if r.space == "file" { assert s[..5] == "file." && s[5..] == r.name && s[0] == 'f'; }
    else {
      assert s[..8] == "formula." && s[8..] == r.name;
      assert s[..5][1] == 'o' && "file."[1] == 'i' && s[..5][0] == 'f';
    }
  }

  lemma {:induction false} PlanIsValid(p: Platform, json: Json, c: Condition)
    ensures PlanOf(p, json, c).Some? ==> ValidPlan(p, PlanOf(p, json, c).value)
  {
    var plan := PlanOf(p, json, c);
    if plan.Some? && plan.value.Compared? {
      if c.operator.Compare? {
        var values := Values(p, json, c).value;
        assert c.operator.comparison in COMPARISONS;
        assert values == [values[0]];
      } else {
        NullFits(p);
        assert Symbols(Equal) == "==" && Equal in COMPARISONS && Symbols(Unequal) == "!=" && Unequal in COMPARISONS;
      }
    }
  }

  lemma {:induction false} NullFits(p: Platform)
    ensures Fits(p, ListLit([NullLit]), 0, MAX_NODES)
  {
    FitsInside(p, ListLit([NullLit]), 0, MAX_NODES);
    FitsSplit(p, [NullLit], 1, MAX_NODES - 1);
  }

  lemma {:induction false} OneFits(p: Platform, v: Lit)
    requires Fits(p, ListLit([v]), 0, MAX_NODES)
    ensures Fits(p, v, 0, MAX_NODES)
  {
    FitsInside(p, ListLit([v]), 0, MAX_NODES);
    FitsSplit(p, [v], 1, MAX_NODES - 1);
  }

  function CallTree(p: Platform, ref: Ref, t: Test, args: seq<Lit>): Expr { Expr.Call(Callee(ref, t), LitExprs(p, args)) }

  function PlanTree(p: Platform, plan: Plan): Expr {
    match plan
    case Compared(ref, symbol, v) => Binary(symbol, Receiver(ref), LitExpr(p, v))
    case Called(ref, t, inverse, args) =>
      if inverse then Expr.Unary("!", CallTree(p, ref, t, args)) else CallTree(p, ref, t, args)
  }

  // ----- the text of a plan parses to its tree

  lemma {:induction false} LettersName(p: FilterPlatform, s: string)
    requires s != "" && forall i :: 0 <= i < |s| ==> 'a' <= s[i] <= 'z' || 'A' <= s[i] <= 'Z'
    ensures IsName(p, s)
  {
  }

  lemma {:induction false} ReceiverFits(p: FilterPlatform, ref: Ref)
    requires ValidRef(ref)
    ensures Admitted(p, Receiver(ref)) && Nesting(Receiver(ref)) <= 2 && !PrintsAsDigits(p, Receiver(ref))
  {
    SpaceFits(p, ref.space);
    IndexFits(p, Identifier(ref.space), ref.name);
  }

  lemma {:induction false} SpaceFits(p: FilterPlatform, space: string)
    requires space in SPACES
    ensures Admitted(p, Identifier(space)) && Nesting(Identifier(space)) == 1
  {
    SpaceLetters(space);
    LettersName(p, space);
    NameFits(p, space);
  }

  lemma {:induction false} SpaceLetters(space: string)
    requires space in SPACES
    ensures space != "" && space !in KEYWORDS && forall i :: 0 <= i < |space| ==> 'a' <= space[i] <= 'z'
  {
  }

  lemma {:induction false} NameFits(p: Platform, name: string)
    requires IsName(p, name) && name !in KEYWORDS
    ensures Admitted(p, Identifier(name)) && Nesting(Identifier(name)) == 1
  {
  }

  lemma {:induction false} IndexFits(p: Platform, owner: Expr, name: string)
    requires Admitted(p, owner) && Nesting(owner) == 1
    ensures Admitted(p, Member(owner, Literal(Str(name)), true)) && Nesting(Member(owner, Literal(Str(name)), true)) == 2
  {
  }

  lemma {:induction false} CalleeFits(p: FilterPlatform, ref: Ref, t: Test)
    requires ValidRef(ref)
    ensures Admitted(p, Callee(ref, t)) && Nesting(Callee(ref, t)) <= 2
  {
    ReceiverFits(p, ref);
    MethodLetters(t);
    LettersName(p, MethodName(t));
  }

  lemma {:induction false} MethodLetters(t: Test)
    ensures MethodName(t) != "" && forall i :: 0 <= i < |MethodName(t)| ==> 'a' <= MethodName(t)[i] <= 'z' || 'A' <= MethodName(t)[i] <= 'Z'
  {
  }

  lemma {:induction false} LexCompared(p: FilterPlatform, ref: Ref, symbol: string, v: Lit)
    requires ValidRef(ref) && symbol in BINARY && Spelled(p, v)
    ensures LexesTo(p, PlanText(p, Compared(ref, symbol, v)),
                    Toks(p, Receiver(ref)) + ([Symbol(symbol)] + (LitToks(p, v) + [End])))
  {
    EndOfText(p);
    LexLit(p, v, "", [End]);
    assert Spell(p, v) + "" == Spell(p, v);
    var value, toks := Spell(p, v), LitToks(p, v) + [End];
    LexSpace(p, value, toks);
    LexOperator(p, symbol, " " + value, toks);
    LexSpace(p, symbol + (" " + value), [Symbol(symbol)] + toks);
    ReceiverFits(p, ref);
    LexRender(p, Receiver(ref), " " + (symbol + (" " + value)), [Symbol(symbol)] + toks);
  }

  lemma {:induction false} ParseInfix(p: NumberedPlatform, left: Expr, symbol: string, v: Lit)
    requires Admitted(p, left) && Nesting(left) <= MAX_NESTING
    requires symbol in BINARY && Spelled(p, v) && Depth(v) <= MAX_DEPTH
    ensures ExpressionIs(p, Toks(p, left) + ([Symbol(symbol)] + (LitToks(p, v) + [End])), MAX_NESTING, 0,
                         Parsed(Binary(symbol, left, LitExpr(p, v)), [End]))
  {
    var e, toks := Binary(symbol, left, LitExpr(p, v)), LitToks(p, v) + [End];
    FirstLitTok(p, v);
    ParseLit(p, v, [End], MAX_NESTING - 1, Strength(symbol) + 1);
    Settles(p, e, [End], MAX_NESTING - 1, 0);
    InfixSuffix(p, left, symbol, LitExpr(p, v), toks, [End], MAX_NESTING - 1, 0, true, Parsed(e, [End]));
    ParseToks(p, left, [Symbol(symbol)] + toks, MAX_NESTING, 0, Parsed(e, [End]));
  }

  function CallToks(p: Platform, ref: Ref, t: Test, args: seq<Lit>): seq<Token> {
    Toks(p, Callee(ref, t)) + ([Symbol("(")] + (LitToksAll(p, args) + ([Symbol(")")] + [End])))
  }

  lemma {:induction false} LexCall(p: FilterPlatform, ref: Ref, t: Test, args: seq<Lit>)
    requires ValidRef(ref) && forall i :: 0 <= i < |args| ==> Spelled(p, args[i])
    ensures LexesTo(p, CallText(p, ref, t, args), CallToks(p, ref, t, args))
  {
    EndOfText(p);
    LexLits(p, ListLit(args), args, '(', ')', "", [End]);
    assert [')'] + "" == [')'];
    CalleeFits(p, ref, t);
    LexRender(p, Callee(ref, t), ['('] + (SpellAll(p, args) + [')']), [Symbol("(")] + (LitToksAll(p, args) + ([Symbol(")")] + [End])));
  }

  lemma {:induction false} ParseCallee(p: NumberedPlatform, callee: Expr, args: seq<Lit>, levels: nat, minimum: nat)
    requires Admitted(p, callee) && Nesting(callee) <= levels
    requires (forall i :: 0 <= i < |args| ==> Spelled(p, args[i])) && levels >= DepthAll(args) + 2
    ensures ExpressionIs(p, Toks(p, callee) + ([Symbol("(")] + (LitToksAll(p, args) + ([Symbol(")")] + [End]))), levels, minimum,
                         Parsed(Expr.Call(callee, LitExprs(p, args)), [End]))
  {
    var e, inner := Expr.Call(callee, LitExprs(p, args)), LitToksAll(p, args) + ([Symbol(")")] + [End]);
    ParseLits(p, ListLit(args), args, ")", [End], levels - 1);
    LitsSound(p, args, ")", [End]);
    Settles(p, e, [End], levels - 1, minimum);
    CallSuffix(p, callee, LitExprs(p, args), inner, [End], levels - 1, minimum, true, Parsed(e, [End]));
    ParseToks(p, callee, [Symbol("(")] + inner, levels, minimum, Parsed(e, [End]));
  }

  lemma {:induction false} ParseCallToks(p: FilterPlatform, ref: Ref, t: Test, args: seq<Lit>, levels: nat, minimum: nat)
    requires ValidRef(ref) && (forall i :: 0 <= i < |args| ==> Spelled(p, args[i])) && levels >= DepthAll(args) + 4
    ensures ExpressionIs(p, CallToks(p, ref, t, args), levels, minimum, Parsed(CallTree(p, ref, t, args), [End]))
  {
    CalleeFits(p, ref, t);
    ParseCallee(p, Callee(ref, t), args, levels, minimum);
  }

  lemma {:induction false} ParsesTo(p: Platform, text: string, ts: seq<Token>, e: Expr)
    requires LexesTo(p, text, ts) && Sound(ts) && !ts[0].End?
    requires ExpressionIs(p, ts, MAX_NESTING, 0, Parsed(e, [End]))
    ensures ParseText(p, text) == Some(e)
  {
    assert Tokens(p, text) == ts && Expression(p, ts, MAX_NESTING, 0) == Parsed(e, [End]);
  }

  lemma {:induction false} ComparedSpelled(p: FilterPlatform, ref: Ref, symbol: string, v: Lit)
    requires ValidPlan(p, Compared(ref, symbol, v))
    ensures ValidRef(ref) && symbol in BINARY && Spelled(p, v) && Depth(v) <= MAX_DEPTH
  {
    var c :| c in COMPARISONS && Symbols(c) == symbol;
    OneFits(p, v);
    FiniteSpelled(p, v);
  }

  lemma {:induction false} ComparedParses(p: FilterPlatform, ref: Ref, symbol: string, v: Lit)
    requires ValidRef(ref) && symbol in BINARY && Spelled(p, v) && Depth(v) <= MAX_DEPTH
    ensures ParseText(p, PlanText(p, Compared(ref, symbol, v))) == Some(PlanTree(p, Compared(ref, symbol, v)))
  {
    LexCompared(p, ref, symbol, v);
    ReceiverFits(p, ref);
    ParseInfix(p, Receiver(ref), symbol, v);
    FirstToken(p, Receiver(ref));
    ParsesTo(p, PlanText(p, Compared(ref, symbol, v)), Toks(p, Receiver(ref)) + ([Symbol(symbol)] + (LitToks(p, v) + [End])),
             PlanTree(p, Compared(ref, symbol, v)));
  }

  lemma {:induction false} ArgsSpelled(p: FilterPlatform, args: seq<Lit>)
    requires Fits(p, ListLit(args), 0, MAX_NODES)
    ensures (forall i :: 0 <= i < |args| ==> Spelled(p, args[i])) && DepthAll(args) <= MAX_DEPTH
    ensures FitsAll(p, args, 0, MAX_NODES)
  {
    FiniteSpelled(p, ListLit(args));
    FitsInside(p, ListLit(args), 0, MAX_NODES);
  }

  lemma {:induction false} CalledParses(p: FilterPlatform, ref: Ref, t: Test, args: seq<Lit>)
    requires ValidRef(ref) && Fits(p, ListLit(args), 0, MAX_NODES)
    ensures ParseText(p, CallText(p, ref, t, args)) == Some(CallTree(p, ref, t, args))
  {
    ArgsSpelled(p, args);
    LexCall(p, ref, t, args);
    ParseCallToks(p, ref, t, args, MAX_NESTING, 0);
    FirstToken(p, Callee(ref, t));
    ParsesTo(p, CallText(p, ref, t, args), CallToks(p, ref, t, args), CallTree(p, ref, t, args));
  }

  lemma {:induction false} InverseParses(p: FilterPlatform, ref: Ref, t: Test, args: seq<Lit>)
    requires ValidRef(ref) && Fits(p, ListLit(args), 0, MAX_NODES)
    ensures ParseText(p, ['!'] + CallText(p, ref, t, args)) == Some(Expr.Unary("!", CallTree(p, ref, t, args)))
  {
    var text, toks := CallText(p, ref, t, args), CallToks(p, ref, t, args);
    var call := CallTree(p, ref, t, args);
    var e := Expr.Unary("!", call);
    ArgsSpelled(p, args);
    LexCall(p, ref, t, args);
    CalleeFits(p, ref, t);
    RenderStarts(p, Callee(ref, t));
    assert text[0] == Render(p, Callee(ref, t))[0] && ['!', text[0]] !in PAIRS;
    LexSingle(p, '!', text, toks);
    ParseCallToks(p, ref, t, args, MAX_NESTING - 1, 7);
    FirstToken(p, Callee(ref, t));
    PrefixPrimary(p, "!", call, toks, [End], MAX_NESTING - 1, true);
    Settles(p, e, [End], MAX_NESTING - 1, 0);
    PrimaryFirst(p, [Symbol("!")] + toks, MAX_NESTING - 1, 0, e, [End], true, Parsed(e, [End]));
    ParsesTo(p, ['!'] + text, [Symbol("!")] + toks, e);
  }

  /** The text of every condition that serializes is in the language, with nothing
      read out of its values. */
  lemma {:induction false} PlanParses(p: FilterPlatform, plan: Plan)
    requires ValidPlan(p, plan)
    ensures ParseText(p, PlanText(p, plan)) == Some(PlanTree(p, plan))
  {
    match plan
    case Compared(ref, symbol, v) =>
      ComparedSpelled(p, ref, symbol, v);
      ComparedParses(p, ref, symbol, v);
    case Called(ref, t, inverse, args) =>
      if inverse { InverseParses(p, ref, t, args); }
      else {
        CalledParses(p, ref, t, args);
        assert "" + CallText(p, ref, t, args) == CallText(p, ref, t, args);
      }
  }

  // ----- decoding the tree of a plan

  lemma {:induction false} ReceiverDecodes(ref: Ref)
    requires ValidRef(ref)
    ensures DecodeProperty(Receiver(ref)) == Some(Id(ref))
  {
    assert Starts("file", "file.") == false && Starts("file", "note.") == false;
  }

  lemma {:induction false} IdsDiffer(r: Ref)
    requires ValidRef(r)
    ensures Id(r) == Id(FILE) <==> r == FILE
  {
    NormalizeId(r);
    NormalizeId(FILE);
  }

  /** What one value decodes to stands for that value. */
  lemma {:induction false} ScalarValues(p: FilterPlatform, json: Json, ref: Ref, operator: Operator, v: Lit)
    requires Finite(p, v) && ValidRef(ref) && (operator.Compare? || (operator.Call? && !v.ListLit?))
    requires !(v.NullLit? && operator in {Compare(Equal), Compare(Unequal)})
    requires operator.Call? ==> !ArityOf(operator.test).Nullary?
    ensures var d := Scalar(p, Id(ref), operator, v);
            d.property == Id(ref) && d.operator == operator && Values(p, json, d) == Some([v])
  {
    if !v.ListLit? { ScalarLegacy(p, json, ref, operator, v); }
  }

  lemma {:induction false} ScalarLegacy(p: FilterPlatform, json: Json, ref: Ref, operator: Operator, v: Lit)
    requires Finite(p, v) && !v.ListLit?
    requires !(v.NullLit? && operator in {Compare(Equal), Compare(Unequal)})
    ensures var d := Scalar(p, Id(ref), operator, v);
            d.arguments == None && d.values == None && d.operand == None && Legacy(p, json, d.text, d.valueType) == Some(v)
  {
    if v.NumberLit? { NumberLegacy(p, json, ref, operator, v.number); }
  }

  lemma {:induction false} NumberLegacy(p: FilterPlatform, json: Json, ref: Ref, operator: Operator, n: Number)
    requires p.finite(n)
    ensures var d := Scalar(p, Id(ref), operator, NumberLit(n)); Legacy(p, json, d.text, d.valueType) == Some(NumberLit(n))
  {
    NumberShape(p, n);
    DecimalShape(p, n);
  }

  lemma {:induction false} DecimalShape(p: FilterPlatform, n: Number)
    requires p.finite(n)
    ensures IsDecimal(SpellNumber(p, n))
  {
    NumberShape(p, n);
  }

  lemma {:induction false} BinaryDecodes(p: Platform, symbol: string, left: Expr, right: Expr, property: string, c: Comparison, v: Lit)
    requires DecodeProperty(left) == Some(property) && property != Id(FILE)
    requires ComparisonNamed(symbol, COMPARISONS) == Some(c)
    requires DecodeLit(p, right, 0, MAX_NODES).Some? && DecodeLit(p, right, 0, MAX_NODES).value.0 == v
    ensures DecodeTree(p, Binary(symbol, left, right)) == Some(Scalar(p, property, Compare(c), v))
  {
  }

  lemma {:induction false} ScalarPlan(p: FilterPlatform, json: Json, ref: Ref, c: Comparison, v: Lit)
    requires ValidRef(ref) && ref != FILE && Fits(p, ListLit([v]), 0, MAX_NODES) && Finite(p, v)
    ensures PlanOf(p, json, Scalar(p, Id(ref), Compare(c), v)) == Some(Compared(ref, Symbols(c), v))
  {
    NormalizeId(ref);
    if !(v.NullLit? && (c.Equal? || c.Unequal?)) { ScalarValues(p, json, ref, Compare(c), v); }
  }

  /** Every comparison but one of the file reads back as a condition of the same plan. */
  lemma {:induction false} ComparedDecodes(p: FilterPlatform, json: Json, ref: Ref, symbol: string, v: Lit)
    requires ValidPlan(p, Compared(ref, symbol, v)) && ref != FILE
    ensures var d := DecodeTree(p, PlanTree(p, Compared(ref, symbol, v)));
            d.Some? && PlanOf(p, json, d.value) == Some(Compared(ref, symbol, v))
  {
    var c :| c in COMPARISONS && Symbols(c) == symbol;
    NamesFound(StartsWith, c);
    ReceiverDecodes(ref);
    IdsDiffer(ref);
    OneFits(p, v);
    FiniteSpelled(p, v);
    DecodeEncoded(p, v, 0, MAX_NODES);
    BinaryDecodes(p, symbol, Receiver(ref), LitExpr(p, v), Id(ref), c, v);
    ScalarPlan(p, json, ref, c, v);
  }

  /** The check of the file itself stays in the advanced editor. */
  lemma {:induction false} FileCheckIsNotDecoded(p: FilterPlatform, symbol: string, v: Lit)
    ensures DecodeTree(p, PlanTree(p, Compared(FILE, symbol, v))) == None
  {
    ReceiverDecodes(FILE);
  }

  // ----- methods

  lemma {:induction false} MethodDecodes(p: Platform, owner: Expr, t: Test, property: string, inverse: bool, args: seq<Expr>)
    requires DecodeProperty(owner) == Some(property) && TestNamed(MethodName(t), TESTS) == Some(t)
    ensures var call := Expr.Call(Member(owner, Literal(Str(MethodName(t))), false), args);
            DecodeTree(p, if inverse then Expr.Unary("!", call) else call) == DecodeCall(p, property, t, inverse, args)
  {
  }

  lemma {:induction false} CallDecodes(p: Platform, ref: Ref, t: Test, inverse: bool, args: seq<Lit>)
    requires ValidRef(ref)
    ensures DecodeTree(p, PlanTree(p, Called(ref, t, inverse, args))) == DecodeCall(p, Id(ref), t, inverse, LitExprs(p, args))
  {
    ReceiverDecodes(ref);
    NamesFound(t, Equal);
    MethodDecodes(p, Receiver(ref), t, Id(ref), inverse, LitExprs(p, args));
  }

  /** The condition that a method call decodes to. */
  function CalledCondition(p: Platform, ref: Ref, t: Test, inverse: bool, args: seq<Lit>): Condition
    requires OnFile(t) ==> AllTexts(args)
  {
    var operator := Operator.Call(t, inverse);
    if OnFile(t) then
      Condition(Id(ref), operator, if args == [] then "" else args[0].text, AsText, Some(TextsOf(args)), None, None)
    else if ArityOf(t).Nullary? then Condition(Id(ref), operator, "", AsText, None, None, None)
    else if |args| == 1 && !args[0].ListLit? then Scalar(p, Id(ref), operator, args[0])
    else Condition(Id(ref), operator, "", AsList, None, None, Some(args))
  }

  lemma {:induction false} CalledDecodes(p: FilterPlatform, ref: Ref, t: Test, inverse: bool, args: seq<Lit>)
    requires ValidPlan(p, Called(ref, t, inverse, args))
    ensures DecodeTree(p, PlanTree(p, Called(ref, t, inverse, args))) == Some(CalledCondition(p, ref, t, inverse, args))
  {
    CallDecodes(p, ref, t, inverse, args);
    ArgsSpelled(p, args);
    DecodeEncodedAll(p, ListLit(args), args, 0, MAX_NODES);
    IdsDiffer(ref);
  }

  lemma {:induction false} CalledValues(p: FilterPlatform, json: Json, ref: Ref, t: Test, inverse: bool, args: seq<Lit>)
    requires ValidPlan(p, Called(ref, t, inverse, args))
    ensures var d := CalledCondition(p, ref, t, inverse, args);
            d.property == Id(ref) && d.operator == Operator.Call(t, inverse) && Values(p, json, d) == Some(args)
  {
    if OnFile(t) {
      assert Texts(TextsOf(args)) == args;
    } else if !ArityOf(t).Nullary? && |args| == 1 && !args[0].ListLit? {
      ArgsSpelled(p, args);
      assert Finite(p, ListLit(args)) ==> Finite(p, args[0]);
      ScalarValues(p, json, ref, Operator.Call(t, inverse), args[0]);
      assert args == [args[0]];
    }
  }

  /** Every method call reads back as a condition of the same plan. */
  lemma {:induction false} CalledReads(p: FilterPlatform, json: Json, ref: Ref, t: Test, inverse: bool, args: seq<Lit>)
    requires ValidPlan(p, Called(ref, t, inverse, args))
    ensures var d := DecodeTree(p, PlanTree(p, Called(ref, t, inverse, args)));
            d.Some? && PlanOf(p, json, d.value) == Some(Called(ref, t, inverse, args))
  {
    CalledDecodes(p, ref, t, inverse, args);
    CalledValues(p, json, ref, t, inverse, args);
    NormalizeId(ref);
  }

  // ----- main results

  /** A check of the file itself, the one kind of condition that is not read back. */
  predicate ChecksFile(c: Condition) {
    PropertyId(c.property) == Some(FILE) && (c.operator.Unset? || c.operator.Assigned?)
  }

  lemma {:induction false} FilePlans(p: Platform, json: Json, c: Condition)
    requires PlanOf(p, json, c).Some?
    ensures ChecksFile(c) <==> PlanOf(p, json, c).value.Compared? && PlanOf(p, json, c).value.ref == FILE
  {
  }

  lemma {:induction false} PlanReads(p: FilterPlatform, json: Json, plan: Plan)
    requires ValidPlan(p, plan) && (plan.Compared? ==> plan.ref != FILE)
    ensures var d := DecodeTree(p, PlanTree(p, plan)); d.Some? && PlanOf(p, json, d.value) == Some(plan)
  {
    match plan
    case Called(ref, t, inverse, args) => CalledReads(p, json, ref, t, inverse, args);
    case Compared(ref, symbol, v) => ComparedDecodes(p, json, ref, symbol, v);
  }

  /** A condition that serializes decodes again, to a condition with the very same
      text, unless it is a check of the file itself. */
  lemma {:induction false} SerializedDecodes(p: FilterPlatform, json: Json, c: Condition)
    requires Serialize(p, json, c).Some?
    ensures var text := Serialize(p, json, c).value;
            var d := Decode(p, text);
            if ChecksFile(c) then d == None else d.Some? && Serialize(p, json, d.value) == Some(text)
  {
    var plan := PlanOf(p, json, c).value;
    PlanIsValid(p, json, c);
    PlanParses(p, plan);
    FilePlans(p, json, c);
    if ChecksFile(c) { FileCheckIsNotDecoded(p, plan.symbol, plan.value); }
    else { PlanReads(p, json, plan); }
  }
}
