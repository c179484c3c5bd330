/** A new note with inferred properties passes the filters they came from. */
module CreationSound {
  import opened Platforms
  import opened Syntax
  import opened Parsing
  import opened Evaluation
  import opened Formulas
  import opened Filters
  import FilterParsing
  import opened FilterLiterals
  import opened FilterConditions
  import opened CreationDefaults

  // ----- the filters covered

  /** A name that the evaluator reads as a note property. */
  predicate NoteName(p: Platform, name: string) {
    p.lower(name) !in ["note", "file", "this", "formula"] && name !in ["file", "formula", "this"]
  }

  predicate NoteProperty(p: Platform, e: Expr) {
    match e
    case Identifier(name) => NoteName(p, name) && Normalize(name) == Ref("note", name)
    case Member(Identifier(space), Literal(Str(_)), _) => space == "note"
    case _ => false
  }

  function KeyOf(e: Expr): string
    requires e.Identifier? || (e.Member? && e.key.Literal? && e.key.value.Str?)
  {
    if e.Identifier? then e.name else e.key.value.text
  }

  predicate PlainLiteral(p: Platform, e: Expr) { LiteralOf(p, e).Some? && Finite(p, LiteralOf(p, e).value) }

  const BOUNDS := ["==", ">=", "<=", ">", "<"]

  /** `&&` and `||` of comparisons with literals, bare properties and `!property`. */
  predicate Covered(p: Platform, e: Expr) {
    match e
    case Binary(operator, left, right) =>
      if operator == "&&" || operator == "||" then Covered(p, left) && Covered(p, right)
      else
        operator in BOUNDS && ((NoteProperty(p, left) && PlainLiteral(p, right))
                               || (NoteProperty(p, right) && PlainLiteral(p, left) && PropertyOf(p, left).None?))
    case Identifier(_) => NoteProperty(p, e)
    case Unary(operator, operand) => operator == "!" && NoteProperty(p, operand)
    case _ => false
  }

  // ----- the values of the row

  function ToValue(v: Lit): Value {
    match v
    case NullLit => Null
    case TextLit(s) => Str(s)
    case FlagLit(b) => Bool(b)
    case NumberLit(n) => Num(n)
    case ListLit(items) => List(ToValues(items))
  }

  function ToValues(items: seq<Lit>): (vs: seq<Value>)
    ensures |vs| == |items|
  {
    if items == [] then [] else [ToValue(items[0])] + ToValues(items[1..])
  }

  /** The note has every inferred property, up to the JSON text of its value. */
  ghost predicate Carries(p: Platform, note: seq<Field>, fields: map<string, Lit>) {
    forall k :: k in fields ==>
      exists v: Lit :: Finite(p, v) && SameJson(p, v, fields[k]) && OwnMember(p, note, k) == ToValue(v)
  }

  /** A value that a saved property can have: no date, no namespace, nothing that
      refuses to become text. */
  predicate SavedValue(v: Value) {
    match v
    case List(items) => forall i :: 0 <= i < |items| ==> SavedValue(items[i])
    case Obj(fields) => forall i :: 0 <= i < |fields| ==> SavedValue(fields[i].value)
    case Foreign(_, _) => false
    case FormulaNamespace => false
    case _ => true
  }

  /** Comparisons of saved values do not throw. */
  ghost predicate Total(p: Platform) {
    forall op, a, b :: op in BOUNDS && SavedValue(a) && SavedValue(b) ==> p.comparison(op, a, b).Good?
  }

  /** What comparisons owe to the numbers and values they compare. */
  ghost predicate Compares(p: Platform, x: Host) {
    Total(p) && EqualityAgrees(p) && BoundsAgree(p, x)
  }

  ghost predicate EqualityAgrees(p: Platform) {
    forall a: Lit, b: Lit :: Finite(p, a) && Finite(p, b) && SameJson(p, a, b) ==>
      p.comparison("==", ToValue(a), ToValue(b)) == Good(Bool(true))
      && p.comparison("==", ToValue(b), ToValue(a)) == Good(Bool(true))
  }

  ghost predicate BoundsAgree(p: Platform, x: Host) {
    && (forall n, k :: p.finite(n) && p.finite(k) && p.showNumber(n) == p.showNumber(k) ==>
          p.comparison(">=", Num(k), Num(n)) == p.comparison("<=", Num(n), Num(k)) == Good(Bool(true))
          && p.comparison("<=", Num(k), Num(n)) == p.comparison(">=", Num(n), Num(k)) == Good(Bool(true)))
    && (forall n, k :: p.finite(n) && p.finite(k) && x.above(n).Some? && p.showNumber(k) == p.showNumber(x.above(n).value) ==>
          p.comparison(">", Num(k), Num(n)) == p.comparison("<", Num(n), Num(k)) == Good(Bool(true)))
    && (forall n, k :: p.finite(n) && p.finite(k) && x.below(n).Some? && p.showNumber(k) == p.showNumber(x.below(n).value) ==>
          p.comparison("<", Num(k), Num(n)) == p.comparison(">", Num(n), Num(k)) == Good(Bool(true)))
  }

  // ----- what a covered expression evaluates to

  function ValueOf(p: Platform, note: seq<Field>, e: Expr): Value
    requires Covered(p, e) || NoteProperty(p, e) || PlainLiteral(p, e)
    decreases e
  {
    if PlainLiteral(p, e) then ToValue(LiteralOf(p, e).value)
    else if NoteProperty(p, e) then OwnMember(p, note, KeyOf(e))
    else
      match e
      case Binary(operator, left, right) =>
        if operator == "&&" then Bool(Truthy(p, ValueOf(p, note, left)) && Truthy(p, ValueOf(p, note, right)))
        else if operator == "||" then Bool(Truthy(p, ValueOf(p, note, left)) || Truthy(p, ValueOf(p, note, right)))
        else
          var r := p.comparison(operator, ValueOf(p, note, left), ValueOf(p, note, right));
          if r.Good? then r.value else Null
      case Unary(_, operand) =>
        var v := ValueOf(p, note, operand);
        if v.Null? then Null else Bool(!Truthy(p, v))
      case _ => Null
  }

  function Height(e: Expr): (n: nat)
    ensures n > 0
  {
    match e
    case ListOf(items) => 1 + HeightAll(items)
    case Unary(_, operand) => 1 + Height(operand)
    case Binary(_, left, right) => 1 + Max(Height(left), Height(right))
    case Member(owner, key, _) => 1 + Max(Height(owner), Height(key))
    case _ => 1
  }

  function HeightAll(es: seq<Expr>): nat {
    if es == [] then 0 else Max(Height(es[0]), HeightAll(es[1..]))
  }

  function Weight(e: Expr): (n: nat)
    ensures n > 0
  {
    match e
    case ListOf(items) => 1 + WeightAll(items)
    case Unary(_, operand) => 1 + Weight(operand)
    case Binary(_, left, right) => 1 + Weight(left) + Weight(right)
    case Member(owner, key, _) => 1 + Weight(owner) + Weight(key)
    case _ => 1
  }

  function WeightAll(es: seq<Expr>): nat {
    if es == [] then 0 else Weight(es[0]) + WeightAll(es[1..])
  }

  /** The row of a new note: its saved properties, and no identifiers of a host. */
  ghost predicate NewRow(c: Config, note: seq<Field>) {
    && c.row.note == Obj(note) && (forall name :: c.row.custom(name).None?)
    && forall i :: 0 <= i < |note| ==> SavedValue(note[i].value)
  }

  lemma {:induction false} LiteralIsSaved(v: Lit)
    ensures SavedValue(ToValue(v))
    decreases v, 1
  {
    if v.ListLit? { LiteralsAreSaved(v, v.items); }
  }

  lemma {:induction false} LiteralsAreSaved(parent: Lit, items: seq<Lit>)
    requires forall i :: 0 <= i < |items| ==> items[i] < parent
    ensures forall i :: 0 <= i < |items| ==> SavedValue(ToValues(items)[i])
    decreases parent, 0, |items|
  {
    if items != [] {
      LiteralIsSaved(items[0]);
      LiteralsAreSaved(parent, items[1..]);
    }
  }

  lemma {:induction false} OperandIsSaved(c: Config, note: seq<Field>, e: Expr)
    requires NewRow(c, note) && (NoteProperty(c.platform, e) || PlainLiteral(c.platform, e))
    ensures SavedValue(ValueOf(c.platform, note, e))
  {
    if PlainLiteral(c.platform, e) { LiteralIsSaved(LiteralOf(c.platform, e).value); }
  }

  predicate Gives(c: Config, e: Expr, levels: nat, budget: nat, v: Value) {
    var s := Unfold(c, e, [], levels, budget);
    s.outcome == Yields(v) && s.left + Weight(e) >= budget
  }

  // ----- evaluation, by construct

  lemma {:induction false} OneChild(c: Config, e: Expr, child: Expr, levels: nat, budget: nat, v: Value, result: Value)
    requires levels > 0 && budget > 0 && Gives(c, child, levels - 1, budget - 1, v)
    requires Step(c.platform, c.row, e, [], []) == Evaluate(child, [])
    requires Step(c.platform, c.row, e, [], [v]) == Return(Good(result))
    requires Weight(e) == 1 + Weight(child)
    ensures Gives(c, e, levels, budget, result)
  {
    assert [] + [v] == [v];
    var s := Unfold(c, child, [], levels - 1, budget - 1);
    assert UnfoldFrom(c, e, [], [v], levels - 1, s.left) == Spent(Yields(result), s.left);
    assert UnfoldFrom(c, e, [], [], levels - 1, budget - 1) == UnfoldFrom(c, e, [], [v], levels - 1, s.left);
  }

  lemma {:induction false} TwoChildren(c: Config, e: Expr, a: Expr, b: Expr, levels: nat, budget: nat, va: Value, vb: Value, result: Value)
    requires levels > 0 && budget > Weight(a)
    requires Gives(c, a, levels - 1, budget - 1, va)
    requires Gives(c, b, levels - 1, Unfold(c, a, [], levels - 1, budget - 1).left, vb)
    requires Step(c.platform, c.row, e, [], []) == Evaluate(a, [])
    requires Step(c.platform, c.row, e, [], [va]) == Evaluate(b, [])
    requires Step(c.platform, c.row, e, [], [va, vb]) == Return(Good(result))
    requires Weight(e) == 1 + Weight(a) + Weight(b)
    ensures Gives(c, e, levels, budget, result)
  {
    assert [] + [va] == [va] && [va] + [vb] == [va, vb];
    var s := Unfold(c, a, [], levels - 1, budget - 1);
    var t := Unfold(c, b, [], levels - 1, s.left);
    assert UnfoldFrom(c, e, [], [va, vb], levels - 1, t.left) == Spent(Yields(result), t.left);
    assert UnfoldFrom(c, e, [], [va], levels - 1, s.left) == UnfoldFrom(c, e, [], [va, vb], levels - 1, t.left);
    assert UnfoldFrom(c, e, [], [], levels - 1, budget - 1) == UnfoldFrom(c, e, [], [va], levels - 1, s.left);
  }

  /** A list whose items from `k` on are still to be evaluated. */
  lemma {:induction false} ListItems(c: Config, e: Expr, values: seq<Value>, k: nat, levels: nat, budget: nat)
    requires e.ListOf? && |values| == |e.items| && k <= |values| && budget >= WeightAll(e.items[k..])
    requires forall i, b: nat {:trigger Gives(c, e.items[i], levels, b, values[i])} ::
               k <= i < |values| && b >= Weight(e.items[i]) ==> Gives(c, e.items[i], levels, b, values[i])
    ensures var s := UnfoldFrom(c, e, [], values[..k], levels, budget);
            s.outcome == Yields(List(values)) && s.left + WeightAll(e.items[k..]) >= budget
    decreases |values| - k
  {
    if k == |values| {
      assert values[..k] == values && e.items[k..] == [];
    } else {
      assert e.items[k..][0] == e.items[k] && e.items[k..][1..] == e.items[k + 1..];
      assert Gives(c, e.items[k], levels, budget, values[k]);
      var left := Unfold(c, e.items[k], [], levels, budget).left;
      ListItems(c, e, values, k + 1, levels, left);
      assert values[..k] + [values[k]] == values[..k + 1];
    }
  }

  lemma {:induction false} LiteralGives(c: Config, e: Expr, levels: nat, budget: nat)
    requires PlainLiteral(c.platform, e) && levels >= Height(e) && budget >= Weight(e)
    ensures Gives(c, e, levels, budget, ToValue(LiteralOf(c.platform, e).value))
    decreases e, 1
  {
    var p := c.platform;
    match e
    case Literal(v) =>
    case Unary(_, operand) =>
      var n := operand.value;
      assert Gives(c, operand, levels - 1, budget - 1, n);
      OneChild(c, e, operand, levels, budget, n, Num(p.negate(n.number)));
    case ListOf(items) => ListGives(c, e, levels, budget);
  }

  lemma {:induction false} LiteralsPlain(p: Platform, es: seq<Expr>)
    requires LiteralsOf(p, es).Some?
    ensures var vs := LiteralsOf(p, es).value;
            |vs| == |es| && forall i :: 0 <= i < |es| ==> LiteralOf(p, es[i]) == Some(vs[i])
  {
    if es != [] { LiteralsPlain(p, es[1..]); }
  }

  lemma {:induction false} ToValuesAt(items: seq<Lit>, i: nat)
    requires i < |items|
    ensures ToValues(items)[i] == ToValue(items[i])
  {
    if i > 0 { ToValuesAt(items[1..], i - 1); }
  }

  lemma {:induction false} HeightAt(es: seq<Expr>, i: nat)
    requires i < |es|
    ensures Height(es[i]) <= HeightAll(es)
  {
    if i > 0 { HeightAt(es[1..], i - 1); }
  }

  lemma {:induction false} ListGives(c: Config, e: Expr, levels: nat, budget: nat)
    requires e.ListOf? && PlainLiteral(c.platform, e) && levels >= Height(e) && budget >= Weight(e)
    ensures Gives(c, e, levels, budget, ToValue(LiteralOf(c.platform, e).value))
    decreases e, 0
  {
    var p, items := c.platform, e.items;
    var lits := LiteralsOf(p, items).value;
    var values := ToValues(lits);
    LiteralsPlain(p, items);
    forall i, b: nat {:trigger Gives(c, items[i], levels - 1, b, values[i])} | 0 <= i < |values| && b >= Weight(items[i])
      ensures Gives(c, items[i], levels - 1, b, values[i])
    {
      HeightAt(items, i);
      ToValuesAt(lits, i);
      assert LiteralOf(p, e) == Some(ListLit(lits)) && Finite(p, ListLit(lits));
      LiteralGives(c, items[i], levels - 1, b);
    }
    assert items[0..] == items && values[..0] == [];
    ListItems(c, e, values, 0, levels - 1, budget - 1);
  }

  lemma {:induction false} PropertyGives(c: Config, note: seq<Field>, e: Expr, levels: nat, budget: nat)
    requires NewRow(c, note) && NoteProperty(c.platform, e) && levels >= Height(e) && budget >= Weight(e)
    requires c.platform.lower("note") == "note"
    ensures Gives(c, e, levels, budget, OwnMember(c.platform, note, KeyOf(e)))
  {
    var p := c.platform;
    if e.Member? {
      assert e.owner == Identifier("note");
      assert Resolve(p, c.row, [], "note") == Obj(note);
      assert Unfold(c, e.owner, [], levels - 1, budget - 1) == Spent(Yields(Obj(note)), budget - 2);
      assert Gives(c, e.key, levels - 1, budget - 2, e.key.value);
      TwoChildren(c, e, e.owner, e.key, levels, budget, Obj(note), e.key.value, OwnMember(p, note, KeyOf(e)));
    }
  }

  lemma {:induction false} OperandGives(c: Config, note: seq<Field>, e: Expr, levels: nat, budget: nat)
    requires NewRow(c, note) && levels >= Height(e) && budget >= Weight(e) && c.platform.lower("note") == "note"
    requires NoteProperty(c.platform, e) || PlainLiteral(c.platform, e)
    ensures Gives(c, e, levels, budget, ValueOf(c.platform, note, e))
  {
    if PlainLiteral(c.platform, e) { LiteralGives(c, e, levels, budget); } else { PropertyGives(c, note, e, levels, budget); }
  }

  /** A property of the note or a literal, which there is room to evaluate; stated so
      that the shape of the operand is unfolded only on demand. */
  ghost predicate Operand(p: Platform, e: Expr, levels: nat, budget: nat) {
    forall x {:trigger NoteProperty(p, x)} :: x == e ==>
      (NoteProperty(p, x) || PlainLiteral(p, x)) && levels >= Height(x) && budget >= Weight(x)
  }

  lemma {:induction false} BoundOperands(p: Platform, e: Expr, levels: nat, budget: nat)
    requires Covered(p, e) && e.Binary? && e.operator in BOUNDS && levels >= Height(e) && budget >= Weight(e)
    ensures levels > 0 && budget > Weight(e.left)
    ensures Operand(p, e.left, levels - 1, budget - 1) && Operand(p, e.right, levels - 1, budget - 1 - Weight(e.left))
  {
  }

  lemma {:induction false} TwoOperandsGive(c: Config, note: seq<Field>, a: Expr, b: Expr, levels: nat, budget: nat)
    requires NewRow(c, note) && c.platform.lower("note") == "note"
    requires budget >= Weight(a) && Operand(c.platform, a, levels, budget) && Operand(c.platform, b, levels, budget - Weight(a))
    ensures Gives(c, a, levels, budget, ValueOf(c.platform, note, a))
    ensures Gives(c, b, levels, Unfold(c, a, [], levels, budget).left, ValueOf(c.platform, note, b))
    ensures SavedValue(ValueOf(c.platform, note, a)) && SavedValue(ValueOf(c.platform, note, b))
  {
    assert NoteProperty(c.platform, a) || PlainLiteral(c.platform, a);
    assert NoteProperty(c.platform, b) || PlainLiteral(c.platform, b);
    OperandIsSaved(c, note, a);
    OperandIsSaved(c, note, b);
    OperandGives(c, note, a, levels, budget);
    OperandGives(c, note, b, levels, Unfold(c, a, [], levels, budget).left);
  }

  lemma {:induction false} OperandsGive(c: Config, note: seq<Field>, e: Expr, levels: nat, budget: nat)
    requires NewRow(c, note) && c.platform.lower("note") == "note" && e.Binary? && levels > 0 && budget > Weight(e.left)
    requires Operand(c.platform, e.left, levels - 1, budget - 1) && Operand(c.platform, e.right, levels - 1, budget - 1 - Weight(e.left))
    ensures Gives(c, e.left, levels - 1, budget - 1, ValueOf(c.platform, note, e.left))
    ensures Gives(c, e.right, levels - 1, Unfold(c, e.left, [], levels - 1, budget - 1).left, ValueOf(c.platform, note, e.right))
    ensures SavedValue(ValueOf(c.platform, note, e.left)) && SavedValue(ValueOf(c.platform, note, e.right))
  {
    TwoOperandsGive(c, note, e.left, e.right, levels - 1, budget - 1);
  }

  lemma {:induction false} BoundGives(c: Config, note: seq<Field>, e: Expr, levels: nat, budget: nat)
    requires NewRow(c, note) && Total(c.platform) && c.platform.lower("note") == "note"
    requires Covered(c.platform, e) && e.Binary? && e.operator in BOUNDS && levels >= Height(e) && budget >= Weight(e)
    ensures Gives(c, e, levels, budget, ValueOf(c.platform, note, e))
  {
    BoundOperands(c.platform, e, levels, budget);
    OperandsGive(c, note, e, levels, budget);
    ComparisonGives(c, note, e, levels, budget);
  }

  lemma {:induction false} InverseGives(c: Config, note: seq<Field>, e: Expr, levels: nat, budget: nat)
    requires NewRow(c, note) && c.platform.lower("note") == "note"
    requires Covered(c.platform, e) && e.Unary? && levels >= Height(e) && budget >= Weight(e)
    ensures Gives(c, e, levels, budget, ValueOf(c.platform, note, e))
  {
    OperandGives(c, note, e.operand, levels - 1, budget - 1);
    NegationGives(c, note, e, levels, budget);
  }

  /** With room for its nodes a covered expression never throws. */
  lemma {:induction false} CoveredGives(c: Config, note: seq<Field>, e: Expr, levels: nat, budget: nat)
    requires NewRow(c, note) && Total(c.platform) && c.platform.lower("note") == "note"
    requires Covered(c.platform, e) && levels >= Height(e) && budget >= Weight(e)
    ensures Gives(c, e, levels, budget, ValueOf(c.platform, note, e))
    decreases e, 1
  {
    if e.Identifier? { OperandGives(c, note, e, levels, budget); }
    else if e.Unary? { InverseGives(c, note, e, levels, budget); }
    else if e.operator == "&&" || e.operator == "||" { JoinGives(c, note, e, levels, budget); }
    else { BoundGives(c, note, e, levels, budget); }
  }

  lemma {:induction false} JoinGives(c: Config, note: seq<Field>, e: Expr, levels: nat, budget: nat)
    requires NewRow(c, note) && Total(c.platform) && c.platform.lower("note") == "note"
    requires Covered(c.platform, e) && e.Binary? && e.operator in ["&&", "||"] && levels >= Height(e) && budget >= Weight(e)
    ensures Gives(c, e, levels, budget, ValueOf(c.platform, note, e))
    decreases e, 0
  {
    CoveredGives(c, note, e.left, levels - 1, budget - 1);
    CoveredGives(c, note, e.right, levels - 1, Unfold(c, e.left, [], levels - 1, budget - 1).left);
    ConnectiveGives(c, note, e, levels, budget);
  }

  lemma {:induction false} NegationGives(c: Config, note: seq<Field>, e: Expr, levels: nat, budget: nat)
    requires Covered(c.platform, e) && e.Unary? && levels > 0 && budget > 0
    requires Gives(c, e.operand, levels - 1, budget - 1, ValueOf(c.platform, note, e.operand))
    ensures Gives(c, e, levels, budget, ValueOf(c.platform, note, e))
  {
    OneChild(c, e, e.operand, levels, budget, ValueOf(c.platform, note, e.operand), ValueOf(c.platform, note, e));
  }

  lemma {:induction false} ConnectiveGives(c: Config, note: seq<Field>, e: Expr, levels: nat, budget: nat)
    requires Covered(c.platform, e) && e.Binary? && e.operator in ["&&", "||"] && levels > 0 && budget >= Weight(e)
    requires Gives(c, e.left, levels - 1, budget - 1, ValueOf(c.platform, note, e.left))
    requires Gives(c, e.right, levels - 1, Unfold(c, e.left, [], levels - 1, budget - 1).left, ValueOf(c.platform, note, e.right))
    ensures Gives(c, e, levels, budget, ValueOf(c.platform, note, e))
  {
    var p, a, b := c.platform, ValueOf(c.platform, note, e.left), ValueOf(c.platform, note, e.right);
    if Truthy(p, a) == (e.operator == "||") {
      var s := Unfold(c, e.left, [], levels - 1, budget - 1);
      assert [] + [a] == [a];
      assert UnfoldFrom(c, e, [], [a], levels - 1, s.left) == Spent(Yields(ValueOf(p, note, e)), s.left);
      assert UnfoldFrom(c, e, [], [], levels - 1, budget - 1) == UnfoldFrom(c, e, [], [a], levels - 1, s.left);
    } else {
      TwoChildren(c, e, e.left, e.right, levels, budget, a, b, ValueOf(p, note, e));
    }
  }

  lemma {:induction false} ComparisonGives(c: Config, note: seq<Field>, e: Expr, levels: nat, budget: nat)
    requires Covered(c.platform, e) && Total(c.platform) && e.Binary? && e.operator in BOUNDS && levels > 0 && budget >= Weight(e)
    requires SavedValue(ValueOf(c.platform, note, e.left)) && SavedValue(ValueOf(c.platform, note, e.right))
    requires Gives(c, e.left, levels - 1, budget - 1, ValueOf(c.platform, note, e.left))
    requires Gives(c, e.right, levels - 1, Unfold(c, e.left, [], levels - 1, budget - 1).left, ValueOf(c.platform, note, e.right))
    ensures Gives(c, e, levels, budget, ValueOf(c.platform, note, e))
  {
    var p, a, b := c.platform, ValueOf(c.platform, note, e.left), ValueOf(c.platform, note, e.right);
    assert p.comparison(e.operator, a, b).Good?;
    TwoChildren(c, e, e.left, e.right, levels, budget, a, b, ValueOf(p, note, e));
  }

  // ----- soundness of one expression

  lemma {:induction false} CarriesMore(p: Platform, note: seq<Field>, h: Hints, fields: map<string, Lit>)
    requires Carries(p, note, h.fields) && Includes(p, h, fields)
    ensures Carries(p, note, fields)
  {
    forall k | k in fields
      ensures exists v: Lit :: Finite(p, v) && SameJson(p, v, fields[k]) && OwnMember(p, note, k) == ToValue(v)
    {
      var v: Lit :| Finite(p, v) && SameJson(p, v, h.fields[k]) && OwnMember(p, note, k) == ToValue(v);
      SameJsonTrans(p, v, h.fields[k], fields[k]);
    }
  }

  /** A property that was given a value has that value in the note. */
  lemma {:induction false} Assigned(p: Platform, x: Host, h: Hints, key: string, v: Lit, note: seq<Field>) returns (w: Lit)
    requires var h' := Assign(p, x, h, "note." + key, v); !h'.warned && Carries(p, note, h'.fields)
    ensures Finite(p, w) && SameJson(p, w, v) && OwnMember(p, note, key) == ToValue(w)
  {
    var id := "note." + key;
    assert id[..5] == "note." && id[5..] == key;
    AssignExtends(p, x, h, id, v);
    var h' := Assign(p, x, h, id, v);
    w :| Finite(p, w) && SameJson(p, w, h'.fields[key]) && OwnMember(p, note, key) == ToValue(w);
    SameJsonTrans(p, w, h'.fields[key], v);
  }

  lemma {:induction false} PropertyId(p: Platform, e: Expr)
    requires NoteProperty(p, e)
    ensures PropertyOf(p, e) == Some("note." + KeyOf(e))
  {
    assert "note" + "." == "note.";
  }

  lemma {:induction false} EqualHolds(p: Platform, x: Host, h: Hints, key: string, v: Lit, note: seq<Field>)
    requires Compares(p, x) && Finite(p, v)
    requires var h' := Assign(p, x, h, "note." + key, v); !h'.warned && Carries(p, note, h'.fields)
    ensures p.comparison("==", OwnMember(p, note, key), ToValue(v)) == Good(Bool(true))
    ensures p.comparison("==", ToValue(v), OwnMember(p, note, key)) == Good(Bool(true))
  {
    var w := Assigned(p, x, h, key, v, note);
    assert SameJson(p, w, v);
  }

  lemma {:induction false} OrderHolds(p: Platform, x: Host, operator: string, n: Number, k: Number)
    requires Compares(p, x) && p.finite(n) && p.finite(k) && operator in [">=", "<=", ">", "<"]
    requires operator == ">" ==> x.above(n).Some? && p.showNumber(k) == p.showNumber(x.above(n).value)
    requires operator == "<" ==> x.below(n).Some? && p.showNumber(k) == p.showNumber(x.below(n).value)
    requires operator == ">=" || operator == "<=" ==> p.showNumber(k) == p.showNumber(n)
    ensures p.comparison(operator, Num(k), Num(n)) == p.comparison(Flip(operator), Num(n), Num(k)) == Good(Bool(true))
  {
  }

  lemma {:induction false} BoundHolds(p: Platform, x: Host, h: Hints, key: string, operator: string, v: Lit, note: seq<Field>)
    requires Compares(p, x) && operator in BOUNDS && Finite(p, v)
    requires var b := Bound(p, x, h, "note." + key, operator, v);
             b.Some? && !b.value.warned && Carries(p, note, b.value.fields)
    ensures var a := OwnMember(p, note, key);
            && p.comparison(operator, a, ToValue(v)) == Good(Bool(true))
            && p.comparison(Flip(operator), ToValue(v), a) == Good(Bool(true))
  {
    if operator == "==" { EqualHolds(p, x, h, key, v, note); }
    else {
      var n := v.number;
      var next := if operator == ">" then x.above(n) else if operator == "<" then x.below(n) else Some(n);
      var w := Assigned(p, x, h, key, NumberLit(next.value), note);
      OrderHolds(p, x, operator, n, w.number);
    }
  }

  /** What an expression was read for holds of every note that carries the hints. */
  ghost predicate Holding(p: Platform, h: Hints, h': Hints, e: Expr)
    requires Covered(p, e)
  {
    && Extends(h, h')
    && (!h'.warned ==> forall note {:trigger ValueOf(p, note, e)} :: Carries(p, note, h'.fields) ==> Truthy(p, ValueOf(p, note, e)))
  }

  lemma {:induction false} CarriesEarlier(p: Platform, note: seq<Field>, h: Hints, h': Hints)
    requires Extends(h, h') && Carries(p, note, h'.fields)
    ensures Carries(p, note, h.fields)
  {
    forall k | k in h.fields ensures SameJson(p, h'.fields[k], h.fields[k]) { SameJsonRefl(p, h.fields[k]); }
    CarriesMore(p, note, h', h.fields);
  }

  lemma {:induction false} BareHolds(p: Platform, x: Host, h: Hints, e: Expr, truth: bool)
    requires NoteProperty(p, e)
    ensures var h' := Assign(p, x, h, "note." + KeyOf(e), FlagLit(truth));
            && Extends(h, h')
            && (!h'.warned ==> forall note {:trigger ValueOf(p, note, e)} :: Carries(p, note, h'.fields) ==>
                  ValueOf(p, note, e) == Bool(truth))
  {
    var h' := Assign(p, x, h, "note." + KeyOf(e), FlagLit(truth));
    AssignExtends(p, x, h, "note." + KeyOf(e), FlagLit(truth));
    if !h'.warned {
      forall note {:trigger ValueOf(p, note, e)} | Carries(p, note, h'.fields) ensures ValueOf(p, note, e) == Bool(truth) {
        var w := Assigned(p, x, h, KeyOf(e), FlagLit(truth), note);
      }
    }
  }

  lemma {:induction false} BoundExtends(p: Platform, x: Host, h: Hints, id: string, operator: string, v: Lit)
    ensures var b := Bound(p, x, h, id, operator, v); b.Some? ==> Extends(h, b.value)
  {
    AssignExtends(p, x, h, id, v);
    if v.NumberLit? {
      var next := if operator == ">" then x.above(v.number) else if operator == "<" then x.below(v.number) else Some(v.number);
      if next.Some? { AssignExtends(p, x, h, id, NumberLit(next.value)); }
    }
  }

  lemma {:induction false} OperandValues(p: Platform, note: seq<Field>, property: Expr, other: Expr)
    requires NoteProperty(p, property) && PlainLiteral(p, other)
    ensures ValueOf(p, note, property) == OwnMember(p, note, KeyOf(property))
    ensures ValueOf(p, note, other) == ToValue(LiteralOf(p, other).value)
  {
  }

  lemma {:induction false} ComparedTruthy(p: Platform, note: seq<Field>, e: Expr)
    requires Covered(p, e) && e.Binary? && e.operator in BOUNDS
    requires p.comparison(e.operator, ValueOf(p, note, e.left), ValueOf(p, note, e.right)) == Good(Bool(true))
    ensures Truthy(p, ValueOf(p, note, e))
  {
  }

  lemma {:induction false} ForwardHolds(p: Platform, x: Host, h: Hints, e: Expr, note: seq<Field>)
    requires Compares(p, x) && Covered(p, e) && e.Binary? && e.operator in BOUNDS && NoteProperty(p, e.left)
    requires var b := Bound(p, x, h, "note." + KeyOf(e.left), e.operator, LiteralOf(p, e.right).value);
             b.Some? && !b.value.warned && Carries(p, note, b.value.fields)
    ensures Truthy(p, ValueOf(p, note, e))
  {
    OperandValues(p, note, e.left, e.right);
    BoundHolds(p, x, h, KeyOf(e.left), e.operator, LiteralOf(p, e.right).value, note);
    ComparedTruthy(p, note, e);
  }

  lemma {:induction false} FlipTwice(operator: string)
    requires operator in BOUNDS
    ensures Flip(operator) in BOUNDS && Flip(Flip(operator)) == operator
  {
  }

  lemma {:induction false} BackwardHolds(p: Platform, x: Host, h: Hints, e: Expr, note: seq<Field>)
    requires Compares(p, x) && Covered(p, e) && e.Binary? && e.operator in BOUNDS && !NoteProperty(p, e.left)
    requires var b := Bound(p, x, h, "note." + KeyOf(e.right), Flip(e.operator), LiteralOf(p, e.left).value);
             b.Some? && !b.value.warned && Carries(p, note, b.value.fields)
    ensures Truthy(p, ValueOf(p, note, e))
  {
    FlipTwice(e.operator);
    OperandValues(p, note, e.right, e.left);
    BoundHolds(p, x, h, KeyOf(e.right), Flip(e.operator), LiteralOf(p, e.left).value, note);
    ComparedTruthy(p, note, e);
  }

  lemma {:induction false} CompareIsBound(p: Platform, x: Host, h: Hints, e: Expr)
    requires Covered(p, e) && e.Binary? && e.operator in BOUNDS
    ensures var forward := NoteProperty(p, e.left);
            CompareHints(p, x, h, e.operator, e.left, e.right) ==
            if forward then Bound(p, x, h, "note." + KeyOf(e.left), e.operator, LiteralOf(p, e.right).value)
            else Bound(p, x, h, "note." + KeyOf(e.right), Flip(e.operator), LiteralOf(p, e.left).value)
  {
    PropertyId(p, if NoteProperty(p, e.left) then e.left else e.right);
  }

  lemma {:induction false} CompareHolds(p: Platform, x: Host, h: Hints, e: Expr)
    requires Compares(p, x) && Covered(p, e) && e.Binary? && e.operator in BOUNDS
    ensures Holding(p, h, InferExpression(p, x, h, e), e)
  {
    var b := CompareHints(p, x, h, e.operator, e.left, e.right);
    CompareIsBound(p, x, h, e);
    if NoteProperty(p, e.left) {
      BoundExtends(p, x, h, "note." + KeyOf(e.left), e.operator, LiteralOf(p, e.right).value);
    } else {
      BoundExtends(p, x, h, "note." + KeyOf(e.right), Flip(e.operator), LiteralOf(p, e.left).value);
    }
    if b.Some? && !b.value.warned {
      forall note {:trigger ValueOf(p, note, e)} | Carries(p, note, b.value.fields) ensures Truthy(p, ValueOf(p, note, e)) {
        if NoteProperty(p, e.left) { ForwardHolds(p, x, h, e, note); } else { BackwardHolds(p, x, h, e, note); }
      }
    }
  }

  lemma {:induction false} ChoiceHolds(p: Platform, x: Host, h: Hints, e: Expr, left: Hints, right: Hints)
    requires Covered(p, e) && e.Binary? && e.operator == "||"
    requires Holding(p, NO_HINTS, left, e.left) && Holding(p, NO_HINTS, right, e.right)
    ensures Holding(p, h, Alternatives(p, x, h, [left, right]), e)
  {
    var branches := [left, right];
    var h' := Alternatives(p, x, h, branches);
    AlternativesExtend(p, x, h, branches);
    if !h'.warned {
      var i := Chosen(branches);
      forall note {:trigger ValueOf(p, note, e)} | Carries(p, note, h'.fields) ensures Truthy(p, ValueOf(p, note, e)) {
        CarriesMore(p, note, h', branches[i].fields);
        assert Truthy(p, ValueOf(p, note, if i == 0 then e.left else e.right));
      }
    }
  }

  /** Without a warning the inferred properties satisfy the expression. */
  lemma {:induction false} InferredHolds(p: Platform, x: Host, h: Hints, e: Expr)
    requires Compares(p, x) && Covered(p, e)
    ensures Holding(p, h, InferExpression(p, x, h, e), e)
    decreases e
  {
    match e
    case Identifier(_) =>
      PropertyId(p, e);
      BareHolds(p, x, h, e, true);
    case Unary(_, operand) =>
      PropertyId(p, operand);
      BareHolds(p, x, h, operand, false);
      NegatedHolds(p, x, h, e);
    case Binary(operator, left, right) =>
      if operator == "&&" {
        var h1 := InferExpression(p, x, h, left);
        InferredHolds(p, x, h, left);
        InferredHolds(p, x, h1, right);
        BothHold(p, h, h1, InferExpression(p, x, h1, right), e);
      } else if operator == "||" {
        InferredHolds(p, x, NO_HINTS, left);
        InferredHolds(p, x, NO_HINTS, right);
        ChoiceHolds(p, x, h, e, InferExpression(p, x, NO_HINTS, left), InferExpression(p, x, NO_HINTS, right));
      } else { CompareHolds(p, x, h, e); }
  }

  lemma {:induction false} NegatedHolds(p: Platform, x: Host, h: Hints, e: Expr)
    requires Covered(p, e) && e.Unary?
    requires var h' := Assign(p, x, h, "note." + KeyOf(e.operand), FlagLit(false));
             && Extends(h, h')
             && (!h'.warned ==> forall note {:trigger ValueOf(p, note, e.operand)} :: Carries(p, note, h'.fields) ==>
                   ValueOf(p, note, e.operand) == Bool(false))
    ensures Holding(p, h, Assign(p, x, h, "note." + KeyOf(e.operand), FlagLit(false)), e)
  {
    var h' := Assign(p, x, h, "note." + KeyOf(e.operand), FlagLit(false));
    if !h'.warned {
      forall note {:trigger ValueOf(p, note, e)} | Carries(p, note, h'.fields) ensures Truthy(p, ValueOf(p, note, e)) {
        assert ValueOf(p, note, e.operand) == Bool(false);
      }
    }
  }

  lemma {:induction false} BothHold(p: Platform, h: Hints, h1: Hints, h2: Hints, e: Expr)
    requires Covered(p, e) && e.Binary? && e.operator == "&&"
    requires Holding(p, h, h1, e.left) && Holding(p, h1, h2, e.right)
    ensures Holding(p, h, h2, e)
  {
    if !h2.warned {
      forall note {:trigger ValueOf(p, note, e)} | Carries(p, note, h2.fields) ensures Truthy(p, ValueOf(p, note, e)) {
        CarriesEarlier(p, note, h1, h2);
        assert Truthy(p, ValueOf(p, note, e.left)) && Truthy(p, ValueOf(p, note, e.right));
      }
    }
  }

  // ----- soundness of a stored filter

  /** and/or groups of covered expressions. */
  predicate CoveredFilter(p: Platform, v: Stored) {
    match v
    case Text(source) => ParseText(p, source).Some? && Covered(p, ParseText(p, source).value)
    case Mapping(keys, values) =>
      && |keys| == 1 && |values| == 1 && (keys[0] == "and" || keys[0] == "or") && values[0].Sequence?
      && forall i :: 0 <= i < |values[0].items| ==> CoveredFilter(p, values[0].items[i])
    case _ => false
  }

  /** A leaf of the row's filters, evaluated strictly with the query's limits. */
  function Judge(c: Config, levels: nat, budget: nat, leaf: Body): Verdict {
    match leaf
    case Broken => Throws
    case Compiled(e) =>
      var outcome := Unfold(c, e, [], levels, budget).outcome;
      if !outcome.Yields? then Throws else if Truthy(c.platform, outcome.value) then Holds else Fails
  }

  function Judging(c: Config, levels: nat, budget: nat): Asker<()> {
    (leaf, s) => (Judge(c, levels, budget, leaf), s)
  }

  /** Every leaf has room to be evaluated. */
  predicate Roomy(f: Filter, levels: nat, budget: nat) {
    match f
    case Test(leaf) => leaf.Compiled? ==> Height(leaf.tree) <= levels && Weight(leaf.tree) <= budget
    case Group(_, children) => forall i :: 0 <= i < |children| ==> Roomy(children[i], levels, budget)
  }

  /** A row, and the limits its filters are evaluated under. */
  ghost predicate Setting(c: Config, x: Host, note: seq<Field>) {
    NewRow(c, note) && Compares(c.platform, x) && c.platform.lower("note") == "note"
  }

  lemma {:induction false} CoveredIsShaped(p: Platform, v: Stored)
    requires CoveredFilter(p, v)
    ensures FilterParsing.Shaped(v)
  {
    if v.Mapping? {
      forall i | 0 <= i < |v.values[0].items| ensures FilterParsing.Shaped(v.values[0].items[i]) {
        CoveredIsShaped(p, v.values[0].items[i]);
      }
    }
  }

  /** The tests of a stored filter that was read as `f`. */
  ghost predicate Reads(p: Platform, v: Stored, f: Filter, levels: nat, budget: nat) {
    CoveredFilter(p, v) && FilterParsing.Shaped(v) && FilterParsing.Represents(p, v, f) && Roomy(f, levels, budget)
  }

  ghost predicate ReadsAll(p: Platform, vs: seq<Stored>, fs: seq<Filter>, levels: nat, budget: nat) {
    |vs| == |fs| && forall i :: 0 <= i < |vs| ==> Reads(p, vs[i], fs[i], levels, budget)
  }

  lemma {:induction false} ReadsItems(p: Platform, v: Stored, f: Filter, levels: nat, budget: nat)
    requires Reads(p, v, f, levels, budget) && v.Mapping?
    ensures f.Group? && f.kind == (if v.keys[0] == "and" then And else Or)
    ensures ReadsAll(p, v.values[0].items, f.children, levels, budget)
  {
  }

  lemma {:induction false} LeafVerdict(c: Config, x: Host, note: seq<Field>, e: Expr, levels: nat, budget: nat)
    requires Setting(c, x, note) && Covered(c.platform, e) && Height(e) <= levels && Weight(e) <= budget
    ensures Judge(c, levels, budget, Compiled(e)) == if Truthy(c.platform, ValueOf(c.platform, note, e)) then Holds else Fails
  {
    CoveredGives(c, note, e, levels, budget);
  }

  function Verdict0(c: Config, levels: nat, budget: nat, f: Filter): Verdict { Run(f, Judging(c, levels, budget), ()).0 }

  lemma {:induction false} EveryVerdict(c: Config, levels: nat, budget: nat, fs: seq<Filter>)
    ensures var v := Every(fs, Judging(c, levels, budget), ()).0;
            && ((forall i :: 0 <= i < |fs| ==> Verdict0(c, levels, budget, fs[i]) == Holds) ==> v == Holds)
            && ((forall i :: 0 <= i < |fs| ==> Verdict0(c, levels, budget, fs[i]) != Throws) ==> v != Throws)
    decreases fs
  {
    if fs != [] {
      var (v, s) := Run(fs[0], Judging(c, levels, budget), ());
      assert s == () && v == Verdict0(c, levels, budget, fs[0]);
      EveryVerdict(c, levels, budget, fs[1..]);
    }
  }

  lemma {:induction false} AnyVerdict(c: Config, levels: nat, budget: nat, fs: seq<Filter>)
    requires forall i :: 0 <= i < |fs| ==> Verdict0(c, levels, budget, fs[i]) != Throws
    ensures var v := Any(fs, Judging(c, levels, budget), ()).0;
            v != Throws && ((exists i :: 0 <= i < |fs| && Verdict0(c, levels, budget, fs[i]) == Holds) ==> v == Holds)
    decreases fs
  {
    if fs != [] {
      var (v, s) := Run(fs[0], Judging(c, levels, budget), ());
      assert s == () && v == Verdict0(c, levels, budget, fs[0]);
      forall i | 0 <= i < |fs[1..]| ensures Verdict0(c, levels, budget, fs[1..][i]) != Throws { assert fs[1..][i] == fs[i + 1]; }
      AnyVerdict(c, levels, budget, fs[1..]);
      if i :| 0 <= i < |fs| && Verdict0(c, levels, budget, fs[i]) == Holds {
        if i > 0 { assert fs[1..][i - 1] == fs[i]; }
      }
    }
  }

  /** No covered filter throws on a new note's row. */
  lemma {:induction false} NeverThrows(c: Config, x: Host, note: seq<Field>, v: Stored, f: Filter, levels: nat, budget: nat)
    requires Setting(c, x, note) && Reads(c.platform, v, f, levels, budget)
    ensures Verdict0(c, levels, budget, f) != Throws
    decreases v
  {
    if v.Text? { LeafVerdict(c, x, note, ParseText(c.platform, v.text).value, levels, budget); }
    else {
      ReadsItems(c.platform, v, f, levels, budget);
      var items := v.values[0].items;
      forall i | 0 <= i < |items| ensures Verdict0(c, levels, budget, f.children[i]) != Throws {
        NeverThrows(c, x, note, items[i], f.children[i], levels, budget);
      }
      if f.kind.And? { EveryVerdict(c, levels, budget, f.children); } else { AnyVerdict(c, levels, budget, f.children); }
    }
  }

  /** The hints extend those before, and without a warning the filter holds of the
      row of a note that carries them. */
  ghost predicate FilterHolds(c: Config, note: seq<Field>, h: Hints, h': Hints, verdict: Verdict) {
    Extends(h, h') && (!h'.warned && Carries(c.platform, note, h'.fields) ==> verdict == Holds)
  }

  lemma {:induction false} FilterSound(c: Config, x: Host, note: seq<Field>, h: Hints, v: Stored, f: Filter, levels: nat, budget: nat)
    requires Setting(c, x, note) && Reads(c.platform, v, f, levels, budget)
    ensures FilterHolds(c, note, h, InferFilter(c.platform, x, h, v), Verdict0(c, levels, budget, f))
    decreases v, 1
  {
    var p := c.platform;
    if v.Text? {
      var e := ParseText(p, v.text).value;
      InferredHolds(p, x, h, e);
      LeafVerdict(c, x, note, e, levels, budget);
    } else {
      ReadsItems(p, v, f, levels, budget);
      if v.keys[0] == "and" { AllSound(c, x, note, h, v, v.values[0].items, f.children, levels, budget); }
      else { EitherSound(c, x, note, h, v, f, levels, budget); }
    }
  }

  lemma {:induction false} AllSound(c: Config, x: Host, note: seq<Field>, h: Hints, parent: Stored, vs: seq<Stored>, fs: seq<Filter>, levels: nat, budget: nat)
    requires Setting(c, x, note) && ReadsAll(c.platform, vs, fs, levels, budget) && forall i :: 0 <= i < |vs| ==> vs[i] < parent
    ensures FilterHolds(c, note, h, InferAll(c.platform, x, h, vs), Every(fs, Judging(c, levels, budget), ()).0)
    decreases parent, 0, |vs|
  {
    if vs != [] {
      var h1 := InferFilter(c.platform, x, h, vs[0]);
      var h2 := InferAll(c.platform, x, h1, vs[1..]);
      FilterSound(c, x, note, h, vs[0], fs[0], levels, budget);
      AllSound(c, x, note, h1, parent, vs[1..], fs[1..], levels, budget);
      if !h2.warned && Carries(c.platform, note, h2.fields) {
        CarriesEarlier(c.platform, note, h1, h2);
        var (v, s) := Run(fs[0], Judging(c, levels, budget), ());
        assert s == () && v == Verdict0(c, levels, budget, fs[0]) == Holds;
      }
    }
  }

  lemma {:induction false} EachAt(p: Platform, x: Host, vs: seq<Stored>, i: nat)
    requires i < |vs|
    ensures InferEach(p, x, vs)[i] == InferFilter(p, x, NO_HINTS, vs[i])
  {
    if i > 0 { EachAt(p, x, vs[1..], i - 1); }
  }

  lemma {:induction false} EitherSound(c: Config, x: Host, note: seq<Field>, h: Hints, v: Stored, f: Filter, levels: nat, budget: nat)
    requires Setting(c, x, note) && Reads(c.platform, v, f, levels, budget) && v.Mapping? && v.keys[0] == "or"
    ensures FilterHolds(c, note, h, InferFilter(c.platform, x, h, v), Verdict0(c, levels, budget, f))
    decreases v, 0
  {
    var p, items := c.platform, v.values[0].items;
    ReadsItems(p, v, f, levels, budget);
    var branches := InferEach(p, x, items);
    var h' := Alternatives(p, x, h, branches);
    AlternativesExtend(p, x, h, branches);
    if !h'.warned && Carries(p, note, h'.fields) {
      var i := Chosen(branches);
      EachAt(p, x, items, i);
      FilterSound(c, x, note, NO_HINTS, items[i], f.children[i], levels, budget);
      CarriesMore(p, note, h', branches[i].fields);
      assert Verdict0(c, levels, budget, f.children[i]) == Holds;
      forall j | 0 <= j < |items| ensures Verdict0(c, levels, budget, f.children[j]) != Throws {
        NeverThrows(c, x, note, items[j], f.children[j], levels, budget);
      }
      AnyVerdict(c, levels, budget, f.children);
    }
  }

  // ----- main result

  /** The hints of a view: its Base's filters, then its own; and empty fields for the
      columns of a legacy view. */
  function InferView(p: Platform, x: Host, root: Option<Stored>, view: Option<Stored>, columns: seq<string>): Hints {
    var h1 := if root.Some? then InferFilter(p, x, NO_HINTS, root.value) else NO_HINTS;
    AddColumns(if view.Some? then InferFilter(p, x, h1, view.value) else h1, columns)
  }

  function AddColumns(h: Hints, columns: seq<string>): Hints
    decreases columns
  {
    if columns == [] then h
    else
      var r := Normalize(columns[0]);
      AddColumns(if r.space == "note" && r.name !in h.fields && r.name !in RESERVED then h.(fields := h.fields[r.name := NullLit]) else h,
                 columns[1..])
  }

  lemma {:induction false} ColumnsExtend(h: Hints, columns: seq<string>)
    ensures Extends(h, AddColumns(h, columns)) && AddColumns(h, columns).warned == h.warned
    decreases columns
  {
    if columns != [] {
      var r := Normalize(columns[0]);
      ColumnsExtend(if r.space == "note" && r.name !in h.fields && r.name !in RESERVED then h.(fields := h.fields[r.name := NullLit]) else h,
                    columns[1..]);
    }
  }

  /** When inference gives no warning, the row of a note with the inferred properties
      passes the Base's filter and the view's, each as it was written. */
  lemma {:induction false} DefaultsPassBoth(c: Config, x: Host, note: seq<Field>, root: Option<Stored>, view: Option<Stored>, columns: seq<string>,
                                            f: Filter, g: Filter, levels: nat, budget: nat)
    requires Setting(c, x, note)
    requires root.Some? ==> Reads(c.platform, root.value, f, levels, budget)
    requires view.Some? ==> Reads(c.platform, view.value, g, levels, budget)
    requires var h := InferView(c.platform, x, root, view, columns);
             !h.warned && Carries(c.platform, note, h.fields)
    ensures root.Some? ==> Verdict0(c, levels, budget, f) == Holds
    ensures view.Some? ==> Verdict0(c, levels, budget, g) == Holds
  {
    var h1, h2 := CarriesBoth(c, x, note, root, view, columns, f, g, levels, budget);
    if root.Some? { FilterSound(c, x, note, NO_HINTS, root.value, f, levels, budget); }
    if view.Some? { FilterSound(c, x, note, h1, view.value, g, levels, budget); }
  }

  /** The hints after the Base's filter, and after the view's: the note carries both. */
  lemma {:induction false} CarriesBoth(c: Config, x: Host, note: seq<Field>, root: Option<Stored>, view: Option<Stored>, columns: seq<string>,
                                       f: Filter, g: Filter, levels: nat, budget: nat)
    returns (h1: Hints, h2: Hints)
    requires Setting(c, x, note)
    requires root.Some? ==> Reads(c.platform, root.value, f, levels, budget)
    requires view.Some? ==> Reads(c.platform, view.value, g, levels, budget)
    requires var h := InferView(c.platform, x, root, view, columns);
             !h.warned && Carries(c.platform, note, h.fields)
    ensures h1 == if root.Some? then InferFilter(c.platform, x, NO_HINTS, root.value) else NO_HINTS
    ensures h2 == if view.Some? then InferFilter(c.platform, x, h1, view.value) else h1
    ensures !h1.warned && Carries(c.platform, note, h1.fields) && !h2.warned && Carries(c.platform, note, h2.fields)
  {
    var p := c.platform;
    h1 := if root.Some? then InferFilter(p, x, NO_HINTS, root.value) else NO_HINTS;
    h2 := if view.Some? then InferFilter(p, x, h1, view.value) else h1;
    ColumnsExtend(h2, columns);
    CarriesEarlier(p, note, h2, AddColumns(h2, columns));
    if view.Some? { FilterSound(c, x, note, h1, view.value, g, levels, budget); }
    CarriesEarlier(p, note, h1, h2);
  }

  /** A note made of the inferred properties carries them. */
  lemma {:induction false} NewNoteCarries(p: Platform, note: seq<Field>, fields: map<string, Lit>)
    requires forall k :: k in fields ==> Finite(p, fields[k]) && k in Keys(note)
    requires forall i :: 0 <= i < |note| && note[i].key in fields ==> note[i].value == ToValue(fields[note[i].key])
    ensures Carries(p, note, fields)
  {
    forall k | k in fields
      ensures exists v: Lit :: Finite(p, v) && SameJson(p, v, fields[k]) && OwnMember(p, note, k) == ToValue(v)
    {
      SameJsonRefl(p, fields[k]);
      assert OwnMember(p, note, k) == ToValue(fields[k]);
    }
  }
}
