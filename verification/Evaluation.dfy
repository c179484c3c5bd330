/** One node of the evaluator.

    `evaluateTree` visits the children of a node in a fixed order, and what it
    does next depends only on the values the earlier children gave. `Step` is
    that dependence: given the values so far it names the child to evaluate
    next, the formula to look up, or the node's outcome. The budget, the
    nesting limit and the formula cache are the concern of the callers of
    `Step`, which drive it in module `Formulas`.
 */
module Evaluation {
  import opened Platforms
  import opened Syntax

  /** Lambda variables of `map`, `filter` and `reduce`, innermost first. */
  type Env = seq<Field>

  /** A detached row: `note`, `file`, `this` and the host's extra identifiers. */
  datatype Row = Row(note: Value, file: Value, local: Value, custom: string -> Option<Value>)

  datatype Next =
    | Evaluate(tree: Expr, env: Env)
    | Lookup(name: string)
    | Return(result: Checked)

  function Keys(fields: seq<Field>): (keys: seq<string>)
    ensures |keys| == |fields|
  {
    seq(|fields|, i requires 0 <= i < |fields| => fields[i].key)
  }

  function OwnMember(p: Platform, fields: seq<Field>, name: string): Value {
    match OwnKey(p, Keys(fields), name)
    case None => Null
    case Some(i) => fields[i].value
  }

  function Resolve(p: Platform, row: Row, env: Env, name: string): Value {
    var bound := FirstIndex(Keys(env), k => k == name);
    if bound < |env| then env[bound].value
    else
      var folded := p.lower(name);
      if folded == "note" then row.note
      else if folded == "file" then row.file
      else if folded == "this" then row.local
      else if folded == "formula" then FormulaNamespace
      else if row.custom(name).Some? then row.custom(name).value
      else if row.note.Obj? then OwnMember(p, row.note.fields, name)
      else Null
  }

  /** Access to a member of `owner`, once both values are known. */
  function MemberNext(p: Platform, owner: Value, key: Value, computed: bool): Next {
    if owner.Null? || key.Null? then Return(Good(Null))
    else if computed && owner.List? then
      if !key.Num? then Return(Bad(Access))
      else
        match p.listIndex(key.number, |owner.items|)
        case Some(i) => Return(Good(if i < |owner.items| then owner.items[i] else Null))
        case None => Return(Good(Null))
    else if computed && owner.Str? && key.Num? then
      Return(Good(Str(p.charAt(owner.text, key.number))))
    else if !key.Str? then Return(Bad(Access))
    else if owner.Obj? then Return(Good(OwnMember(p, owner.fields, key.text)))
    else if owner.FormulaNamespace? then Lookup(key.text)
    else if owner.Str? && p.lower(key.text) == "length" then Return(Good(Num(p.ofNat(|owner.text|))))
    else if owner.List? && p.lower(key.text) == "length" then Return(Good(Num(p.ofNat(|owner.items|))))
    else if owner.Foreign? then Return(p.foreignMember(owner, key.text))
    else Return(Bad(Access))
  }

  function UnaryResult(p: Platform, operator: string, v: Value): Checked {
    if v.Null? then Good(Null)
    else if operator == "!" then Good(Bool(!Truthy(p, v)))
    else if !v.Num? then Bad(Type)
    else Good(Num(p.negate(v.number)))
  }

  function BinaryNext(p: Platform, tree: Expr, env: Env, history: seq<Value>): Next
    requires tree.Binary?
  {
    if history == [] then Evaluate(tree.left, env)
    else if |history| == 1 then
      if tree.operator == "&&" && !Truthy(p, history[0]) then Return(Good(Bool(false)))
      else if tree.operator == "||" && Truthy(p, history[0]) then Return(Good(Bool(true)))
      else Evaluate(tree.right, env)
    else if tree.operator == "&&" || tree.operator == "||" then Return(Good(Bool(Truthy(p, history[1]))))
    else if tree.operator in ["+", "-", "*", "/", "%"] then Return(p.arithmetic(tree.operator, history[0], history[1]))
    else Return(p.comparison(tree.operator, history[0], history[1]))
  }

  /** The name a call goes by, and the receiver of a dot-method call. */
  datatype Target = Plain(name: string) | Method(name: string, subject: Expr) | NoTarget

  function CallTarget(callee: Expr): Target {
    if callee.Identifier? then Plain(callee.name)
    else if callee.Member? && !callee.computed && callee.key.Literal? && callee.key.value.Str? then
      Method(callee.key.value.text, callee.owner)
    else NoTarget
  }

  function IfNext(p: Platform, operands: seq<Expr>, env: Env, history: seq<Value>): Next {
    if !(2 <= |operands| <= 3) then Return(Bad(Type))
    else if history == [] then Evaluate(operands[0], env)
    else if |history| == 1 then
      if Truthy(p, history[0]) then Evaluate(operands[1], env)
      else if |operands| == 3 then Evaluate(operands[2], env)
      else Return(Good(Null))
    else Return(Good(history[1]))
  }

  /** The entries that `map`, `filter` and `reduce` walk, with their bindings. */
  function Entries(subject: Value): seq<Value>
    requires subject.List? || subject.Obj?
  {
    if subject.List? then subject.items
    else seq(|subject.fields|, i requires 0 <= i < |subject.fields| => subject.fields[i].value)
  }

  function Bindings(p: Platform, subject: Value, i: nat): Env
    requires subject.List? || subject.Obj?
    requires i < |Entries(subject)|
  {
    if subject.List? then [Field("index", Num(p.ofNat(i))), Field("value", subject.items[i])]
    else [Field("key", Str(subject.fields[i].key)), Field("value", subject.fields[i].value)]
  }

  /** The elements whose lambda result is truthy. */
  function Kept<T>(p: Platform, elements: seq<T>, outputs: seq<Value>): seq<T>
    requires |elements| == |outputs|
  {
    if elements == [] then []
    else (if Truthy(p, outputs[0]) then [elements[0]] else []) + Kept(p, elements[1..], outputs[1..])
  }

  /** `outputs` holds the results so far; for `reduce` its head is the initial accumulator. */
  function IterationNext(p: Platform, name: string, subject: Value, args: seq<Expr>, env: Env, outputs: seq<Value>): Next
    requires subject.List? || subject.Obj?
    requires name in ["map", "filter", "reduce"]
  {
    var entries := Entries(subject);
    if name == "reduce" then
      if subject.Obj? then Return(Bad(UnknownFunction))
      else if |args| != 2 then Return(Bad(Type))
      else if outputs == [] then Evaluate(args[1], env)
      else
        var done := |outputs| - 1;
        if done < |entries| then
          Evaluate(args[0], Bindings(p, subject, done) + [Field("acc", outputs[done])] + env)
        else Return(Good(outputs[done]))
    else if |args| != 1 then Return(Bad(Type))
    else if |outputs| < |entries| then Evaluate(args[0], Bindings(p, subject, |outputs|) + env)
    else if |outputs| > |entries| || name == "map" then Return(Good(List(outputs)))
    else if subject.List? then Return(Good(List(Kept(p, subject.items, outputs))))
    else Return(Good(Obj(Kept(p, subject.fields, outputs))))
  }

  /** Either the position of the next parameter, or the early outcome of a call. */
  datatype Scan = Position(next: nat) | Stop(result: Checked)

  /** Check the arguments evaluated so far against the declared parameters. */
  function ScanArguments(parameters: seq<Parameter>, args: seq<Value>): (s: Scan)
    ensures s.Position? ==> s.next <= |parameters|
  {
    if args == [] then Position(0)
    else
      var before := ScanArguments(parameters, args[..|args| - 1]);
      if before.Stop? then before
      else if before.next == |parameters| then Stop(Bad(Type))
      else
        var value, parameter := args[|args| - 1], parameters[before.next];
        var advanced := if parameter.variadic then before else Position(before.next + 1);
        if value.Null? && parameter.optional then advanced
        else if "any" !in parameter.types && TypeName(value) !in parameter.types then
          Stop(if value.Null? then Good(Null) else Bad(Type))
        else advanced
  }

  function InvokeNext(definition: Definition, args: seq<Expr>, env: Env, subject: Option<Value>, history: seq<Value>): Next {
    match ScanArguments(definition.parameters, history)
    case Stop(result) => Return(result)
    case Position(next) =>
      if |history| < |args| then Evaluate(args[|history|], env)
      else if exists parameter <- definition.parameters[next..] :: !parameter.optional && !parameter.variadic then Return(Bad(Type))
      else Return(definition.invoke(history, subject))
  }

  /** A call by `name`, after its receiver (if any) has been evaluated. */
  function ApplyNext(p: Platform, name: string, subject: Option<Value>, args: seq<Expr>, env: Env, history: seq<Value>): Next {
    if subject.Some? && (subject.value.List? || subject.value.Obj?) && name in ["map", "filter", "reduce"] then
      IterationNext(p, name, subject.value, args, env, history)
    else
      match p.find(name, subject)
      case None => Return(if subject == Some(Null) then Good(Null) else Bad(UnknownFunction))
      case Some(definition) => InvokeNext(definition, args, env, subject, history)
  }

  function CallNext(p: Platform, tree: Expr, env: Env, history: seq<Value>): Next
    requires tree.Call?
  {
    match CallTarget(tree.callee)
    case NoTarget => Return(Bad(Unsupported))
    case Plain(name) =>
      if name == "if" then IfNext(p, tree.args, env, history)
      else ApplyNext(p, name, None, tree.args, env, history)
    case Method(name, subject) =>
      if name == "if" then IfNext(p, [subject] + tree.args, env, history)
      else if history == [] then Evaluate(subject, env)
      else ApplyNext(p, name, Some(history[0]), tree.args, env, history[1..])
  }

  /** What `evaluateTree` does at `tree` once its earlier children gave `history`. */
  function Step(p: Platform, row: Row, tree: Expr, env: Env, history: seq<Value>): Next {
    match tree
    case Literal(v) => Return(Good(v))
    case Identifier(name) => Return(Good(Resolve(p, row, env, name)))
    case ListOf(items) =>
      if |history| < |items| then Evaluate(items[|history|], env) else Return(Good(List(history)))
    case Unary(operator, operand) =>
      if history == [] then Evaluate(operand, env) else Return(UnaryResult(p, operator, history[0]))
    case Binary(_, _, _) => BinaryNext(p, tree, env, history)
    case Member(owner, key, computed) =>
      if history == [] then Evaluate(owner, env)
      else if |history| == 1 then Evaluate(key, env)
      else MemberNext(p, history[0], history[1], computed)
    case Call(_, _) => CallNext(p, tree, env, history)
  }
}
