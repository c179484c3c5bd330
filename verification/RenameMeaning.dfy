/** Renaming a formula, on syntax trees: what `renameFormula` rewrites, and
    when every expression keeps its meaning under the renamed formula map. */
module RenameMeaning {
  import opened Platforms
  import opened Syntax
  import opened Evaluation
  import opened Formulas
  import opened FormulaMemo

  /** `formula.name` or `formula["name"]`, with any spelling of `formula`. */
  predicate IsReference(p: Platform, e: Expr) {
    && e.Member? && e.owner.Identifier? && p.lower(e.owner.name) == "formula"
    && e.key.Literal? && e.key.value.Str?
  }

  /** Does a reference to `name` mean the formula at position `from`? */
  predicate Refers(p: Platform, names: seq<string>, from: nat, name: string) {
    OwnKey(p, names, name) == Some(from)
  }

  /** The tree that the rewritten text parses to. A new name that is not an
      identifier must be written in brackets, which makes the access computed. */
  function Rewrite(p: Platform, names: seq<string>, from: nat, to: string, plain: bool, e: Expr): Expr {
    match e
    case Literal(_) => e
    case Identifier(_) => e
    case ListOf(items) =>
      ListOf(seq(|items|, i requires 0 <= i < |items| => Rewrite(p, names, from, to, plain, items[i])))
    case Unary(operator, operand) => Unary(operator, Rewrite(p, names, from, to, plain, operand))
    case Binary(operator, left, right) =>
      Binary(operator, Rewrite(p, names, from, to, plain, left), Rewrite(p, names, from, to, plain, right))
    case Member(owner, key, computed) =>
      if IsReference(p, e) && Refers(p, names, from, key.value.text) then
        Member(owner, Literal(Str(to)), computed || !plain)
      else Member(Rewrite(p, names, from, to, plain, owner), Rewrite(p, names, from, to, plain, key), computed)
    case Call(callee, args) =>
      Call(Rewrite(p, names, from, to, plain, callee),
           seq(|args|, i requires 0 <= i < |args| => Rewrite(p, names, from, to, plain, args[i])))
  }

  // ----- the condition

  /** `to` is taken for a reference that meant something else (or nothing). */
  predicate Captures(p: Platform, names: seq<string>, from: nat, to: string, name: string)
    requires from < |names|
  {
    OwnKey(p, names, name) != Some(from)
    && (name == to
        || (name !in names && p.lower(name) == p.lower(to)
            && forall j :: 0 <= j < from ==> p.lower(names[j]) != p.lower(name)))
  }

  ghost predicate Unopened(opens: string -> bool, key: Expr) {
    if key.Literal? then key.value.Str? ==> !opens(key.value.text) else forall name :: !opens(name)
  }

  /** The formula namespace occurs only as the owner of a literal name, which is not called,
      and no such name is captured. Other members are not read by a name under which the host
      `opens` the namespace; one that is computed may have any name. */
  ghost predicate Safe(p: Platform, names: seq<string>, from: nat, to: string, opens: string -> bool, e: Expr)
    requires from < |names|
  {
    match e
    case Literal(v) => Clean(v)
    case Identifier(name) => p.lower(name) != "formula"
    case ListOf(items) => forall i :: 0 <= i < |items| ==> Safe(p, names, from, to, opens, items[i])
    case Unary(_, operand) => Safe(p, names, from, to, opens, operand)
    case Binary(_, left, right) => Safe(p, names, from, to, opens, left) && Safe(p, names, from, to, opens, right)
    case Member(owner, key, _) =>
      if IsReference(p, e) then !Captures(p, names, from, to, key.value.text)
      else Safe(p, names, from, to, opens, owner) && Safe(p, names, from, to, opens, key) && Unopened(opens, key)
    case Call(callee, args) =>
      match CallTarget(callee)
      case NoTarget => true
      case Plain(_) => forall i :: 0 <= i < |args| ==> Safe(p, names, from, to, opens, args[i])
      case Method(_, subject) =>
        Safe(p, names, from, to, opens, subject) && forall i :: 0 <= i < |args| ==> Safe(p, names, from, to, opens, args[i])
  }

  /** No formula namespace inside a value: it is a capability, never data. */
  predicate Clean(v: Value) {
    match v
    case List(items) => forall i :: 0 <= i < |items| ==> Clean(items[i])
    case Obj(fields) => forall i :: 0 <= i < |fields| ==> Clean(fields[i].value)
    case FormulaNamespace => false
    case _ => true
  }

  ghost predicate CleanAll(vs: seq<Value>) {
    forall i :: 0 <= i < |vs| ==> Clean(vs[i])
  }

  ghost predicate CleanEnv(env: Env) {
    forall i :: 0 <= i < |env| ==> Clean(env[i].value)
  }

  /** Lambda variables are `index`, `value`, `key` and `acc`: none is spelled `formula`. */
  ghost predicate Scoped(p: Platform, env: Env) {
    forall i :: 0 <= i < |env| ==> Clean(env[i].value) && p.lower(env[i].key) != "formula"
  }

  ghost predicate FoldsLambdaNames(p: Platform) {
    && p.lower("index") != "formula" && p.lower("value") != "formula"
    && p.lower("key") != "formula" && p.lower("acc") != "formula"
  }

  ghost predicate CleanChecked(c: Checked) {
    c.Good? ==> Clean(c.value)
  }

  ghost predicate CleanOutcome(o: Outcome) {
    o.Yields? ==> Clean(o.value)
  }

  ghost predicate CleanCache(cache: map<nat, Outcome>) {
    forall k :: k in cache ==> CleanOutcome(cache[k])
  }

  /** The host's operations and the row do not hand out the formula namespace, but for the
      members of host values whose name `opens` it: a query's `this` hands it out as `formula`. */
  ghost predicate KeepsClean(p: Platform, row: Row, opens: string -> bool) {
    && Clean(row.note) && Clean(row.file) && Clean(row.local)
    && (forall name :: row.custom(name).Some? ==> Clean(row.custom(name).value))
    && (forall op, a, b :: Clean(a) && Clean(b) ==> CleanChecked(p.arithmetic(op, a, b)))
    && (forall op, a, b :: Clean(a) && Clean(b) ==> CleanChecked(p.comparison(op, a, b)))
    && (forall v, name :: Clean(v) && !opens(name) ==> CleanChecked(p.foreignMember(v, name)))
    && (forall name, subject :: p.find(name, subject).Some? && (subject.Some? ==> Clean(subject.value)) ==>
          KeepsCleanCall(p.find(name, subject).value, subject))
  }

  ghost predicate KeepsCleanCall(definition: Definition, subject: Option<Value>) {
    forall args :: CleanAll(args) ==> CleanChecked(definition.invoke(args, subject))
  }

  // ----- looking a name up before and after

  lemma {:induction false} FirstIndexIs(keys: seq<string>, ok: string -> bool, i: nat)
    requires i <= |keys| && (i < |keys| ==> ok(keys[i])) && forall j :: 0 <= j < i ==> !ok(keys[j])
    ensures FirstIndex(keys, ok) == i
  {
  }

  /** The renamed map answers a reference as before (with `to` for names that
      meant `from`) exactly when the reference is not captured. */
  lemma {:induction false} LookupAfterRename(p: Platform, names: seq<string>, from: nat, to: string, name: string)
    requires from < |names| && to !in names
    requires forall i, j :: 0 <= i < j < |names| ==> names[i] != names[j]
    ensures var renamed := names[from := to];
            if Refers(p, names, from, name) then OwnKey(p, renamed, to) == Some(from)
            else OwnKey(p, renamed, name) == OwnKey(p, names, name) <==> !Captures(p, names, from, to, name)
  {
    var renamed := names[from := to];
    if Refers(p, names, from, name) {
      FirstIndexIs(renamed, k => k == to, from);
    } else if name == to {
      FirstIndexIs(renamed, k => k == name, from);
    } else if name in names {
      var i := FirstIndex(names, k => k == name);
      assert i != from;
      FirstIndexIs(renamed, k => k == name, i);
    } else {
      FirstIndexIs(renamed, k => k == name, |renamed|);
      FirstIndexIs(names, k => k == name, |names|);
      var i := FirstIndex(names, k => p.lower(k) == p.lower(name));
      if p.lower(name) == p.lower(to) && from <= i {
        FirstIndexIs(renamed, k => p.lower(k) == p.lower(name), from);
      } else {
        FirstIndexIs(renamed, k => p.lower(k) == p.lower(name), i);
      }
    }
  }

  // ----- one node

  /** The renaming, fixed for a whole proof. */
  datatype Renaming = Renaming(c: Config, from: nat, to: string, plain: bool, opens: string -> bool) {
    function Names(): seq<string> { Formulas.Names(c.formulas) }

    function Tree(e: Expr): Expr { Rewrite(c.platform, Names(), from, to, plain, e) }

    function Entry(f: Formula): Formula {
      f.(body := if f.body.Compiled? then Compiled(Tree(f.body.tree)) else Broken)
    }

    /** The configuration of the renamed document: the entry keeps its place. */
    function After(): Config
      requires from < |c.formulas|
    {
      var rewritten := seq(|c.formulas|, i requires 0 <= i < |c.formulas| => Entry(c.formulas[i]));
      c.(formulas := rewritten[from := rewritten[from].(name := to)])
    }

    ghost predicate SafeTree(e: Expr)
      requires from < |c.formulas|
    {
      Safe(c.platform, Names(), from, to, opens, e)
    }

    /** What the source checks of the two names, and the condition on every formula. */
    ghost predicate Admissible() {
      && from < |c.formulas| && to !in Names()
      && (forall i, j :: 0 <= i < j < |c.formulas| ==> c.formulas[i].name != c.formulas[j].name)
      && KeepsClean(c.platform, c.row, opens) && FoldsLambdaNames(c.platform)
      && (forall i :: 0 <= i < |c.formulas| && c.formulas[i].body.Compiled? ==> SafeTree(c.formulas[i].body.tree))
    }
  }

  /** What `Step` may answer at a node that is not a reference. */
  ghost predicate CleanNext(r: Renaming, next: Next)
    requires r.from < |r.c.formulas|
  {
    match next
    case Evaluate(child, scope) => r.SafeTree(child) && Scoped(r.c.platform, scope)
    case Lookup(_) => false
    case Return(result) => CleanChecked(result)
  }

  function Renamed(r: Renaming, next: Next): Next {
    if next.Evaluate? then Evaluate(r.Tree(next.tree), next.env) else next
  }

  lemma {:induction false} ResolveClean(c: Config, opens: string -> bool, env: Env, name: string)
    requires KeepsClean(c.platform, c.row, opens) && Scoped(c.platform, env) && c.platform.lower(name) != "formula"
    ensures Clean(Resolve(c.platform, c.row, env, name))
  {
  }

  lemma {:induction false} KeptClean(p: Platform, items: seq<Value>, fields: seq<Field>, outputs: seq<Value>)
    ensures |items| == |outputs| && CleanAll(items) ==> CleanAll(Kept(p, items, outputs))
    ensures |fields| == |outputs| && CleanEnv(fields) ==> CleanEnv(Kept(p, fields, outputs))
    decreases |outputs|
  {
    if outputs != [] {
      KeptClean(p, if items == [] then [] else items[1..], if fields == [] then [] else fields[1..], outputs[1..]);
    }
  }

  lemma {:induction false} ScanClean(parameters: seq<Parameter>, args: seq<Value>)
    ensures var s := ScanArguments(parameters, args); s.Stop? ==> CleanChecked(s.result)
  {
    if args != [] { ScanClean(parameters, args[..|args| - 1]); }
  }

  lemma {:induction false} IterationRenamed(r: Renaming, name: string, subject: Value, args: seq<Expr>, env: Env, outputs: seq<Value>)
    requires r.Admissible() && Scoped(r.c.platform, env) && CleanAll(outputs)
    requires (subject.List? || subject.Obj?) && Clean(subject) && name in ["map", "filter", "reduce"]
    requires forall i :: 0 <= i < |args| ==> r.SafeTree(args[i])
    ensures var next := IterationNext(r.c.platform, name, subject, args, env, outputs);
            CleanNext(r, next)
            && IterationNext(r.c.platform, name, subject, TreeAll(r, args), env, outputs) == Renamed(r, next)
  {
    if subject.List? { KeptClean(r.c.platform, subject.items, [], outputs); }
    else { KeptClean(r.c.platform, [], subject.fields, outputs); }
  }

  function TreeAll(r: Renaming, es: seq<Expr>): (s: seq<Expr>)
    ensures |s| == |es|
  {
    seq(|es|, i requires 0 <= i < |es| => r.Tree(es[i]))
  }

  lemma {:induction false} InvokeRenamed(r: Renaming, definition: Definition, args: seq<Expr>, env: Env, subject: Option<Value>, history: seq<Value>)
    requires r.Admissible() && Scoped(r.c.platform, env) && CleanAll(history)
    requires KeepsCleanCall(definition, subject)
    requires forall i :: 0 <= i < |args| ==> r.SafeTree(args[i])
    ensures var next := InvokeNext(definition, args, env, subject, history);
            CleanNext(r, next)
            && InvokeNext(definition, TreeAll(r, args), env, subject, history) == Renamed(r, next)
  {
    ScanClean(definition.parameters, history);
  }

  lemma {:induction false} ApplyRenamed(r: Renaming, name: string, subject: Option<Value>, args: seq<Expr>, env: Env, history: seq<Value>)
    requires r.Admissible() && Scoped(r.c.platform, env) && CleanAll(history) && (subject.Some? ==> Clean(subject.value))
    requires forall i :: 0 <= i < |args| ==> r.SafeTree(args[i])
    ensures var next := ApplyNext(r.c.platform, name, subject, args, env, history);
            CleanNext(r, next)
            && ApplyNext(r.c.platform, name, subject, TreeAll(r, args), env, history) == Renamed(r, next)
  {
    if subject.Some? && (subject.value.List? || subject.value.Obj?) && name in ["map", "filter", "reduce"] {
      IterationRenamed(r, name, subject.value, args, env, history);
    } else if r.c.platform.find(name, subject).Some? {
      InvokeRenamed(r, r.c.platform.find(name, subject).value, args, env, subject, history);
    }
  }

  lemma {:induction false} TargetRenamed(r: Renaming, callee: Expr)
    requires r.from < |r.c.formulas|
    requires CallTarget(callee).Method? ==> r.SafeTree(CallTarget(callee).subject)
    ensures CallTarget(r.Tree(callee)) == match CallTarget(callee)
                                          case Method(name, subject) => Method(name, r.Tree(subject))
                                          case target => target
  {
    if callee.Member? {
      assert r.Tree(callee.key).Literal? <==> callee.key.Literal?;
      assert callee.key.Literal? ==> r.Tree(callee.key) == callee.key;
    }
  }

  lemma {:induction false} PlainRenamed(r: Renaming, e: Expr, name: string, env: Env, history: seq<Value>)
    requires r.Admissible() && e.Call? && r.SafeTree(e) && Scoped(r.c.platform, env) && CleanAll(history) && CallTarget(e.callee) == Plain(name)
    ensures CallsAlike(r, e, env, history)
  {
    TargetRenamed(r, e.callee);
    if name != "if" { ApplyRenamed(r, name, None, e.args, env, history); }
  }

  lemma {:induction false} MethodRenamed(r: Renaming, e: Expr, name: string, subject: Expr, env: Env, history: seq<Value>)
    requires r.Admissible() && e.Call? && r.SafeTree(e) && Scoped(r.c.platform, env) && CleanAll(history)
    requires CallTarget(e.callee) == Method(name, subject)
    ensures CallsAlike(r, e, env, history)
  {
    TargetRenamed(r, e.callee);
    if name == "if" {
      assert TreeAll(r, [subject] + e.args) == [r.Tree(subject)] + TreeAll(r, e.args);
    } else if history != [] {
      ApplyRenamed(r, name, Some(history[0]), e.args, env, history[1..]);
    }
  }

  ghost predicate CallsAlike(r: Renaming, e: Expr, env: Env, history: seq<Value>)
    requires r.from < |r.c.formulas| && e.Call?
  {
    var next := CallNext(r.c.platform, e, env, history);
    CleanNext(r, next) && CallNext(r.c.platform, Call(r.Tree(e.callee), TreeAll(r, e.args)), env, history) == Renamed(r, next)
  }

  lemma {:induction false} CallRenamed(r: Renaming, e: Expr, env: Env, history: seq<Value>)
    requires r.Admissible() && e.Call? && r.SafeTree(e) && Scoped(r.c.platform, env) && CleanAll(history)
    ensures var next := CallNext(r.c.platform, e, env, history);
            CleanNext(r, next) && CallNext(r.c.platform, r.Tree(e), env, history) == Renamed(r, next)
  {
    assert r.Tree(e) == Call(r.Tree(e.callee), TreeAll(r, e.args));
    match CallTarget(e.callee)
    case NoTarget => TargetRenamed(r, e.callee);
    case Plain(name) => PlainRenamed(r, e, name, env, history);
    case Method(name, subject) => MethodRenamed(r, e, name, subject, env, history);
  }

  /** A literal key gave its own value. */
  predicate Literally(e: Expr, history: seq<Value>) {
    e.Member? && e.key.Literal? && |history| > 1 ==> history[1] == e.key.value
  }

  lemma {:induction false} MemberRenamed(r: Renaming, e: Expr, env: Env, history: seq<Value>)
    requires r.Admissible() && e.Member? && r.SafeTree(e) && !IsReference(r.c.platform, e)
    requires Scoped(r.c.platform, env) && CleanAll(history) && Literally(e, history)
    ensures var next := Step(r.c.platform, r.c.row, e, env, history);
            CleanNext(r, next) && Step(r.c.platform, r.c.row, r.Tree(e), env, history) == Renamed(r, next)
  {
  }

  lemma {:induction false} StepRenamed(r: Renaming, e: Expr, env: Env, history: seq<Value>)
    requires r.Admissible() && r.SafeTree(e) && !IsReference(r.c.platform, e)
    requires Scoped(r.c.platform, env) && CleanAll(history) && Literally(e, history)
    ensures var next := Step(r.c.platform, r.c.row, e, env, history);
            CleanNext(r, next) && Step(r.c.platform, r.c.row, r.Tree(e), env, history) == Renamed(r, next)
  {
    match e
    case Call(_, _) => CallRenamed(r, e, env, history);
    case Identifier(name) => ResolveClean(r.c, r.opens, env, name);
    case ListOf(items) => assert r.Tree(e) == ListOf(TreeAll(r, items));
    case Member(_, _, _) => MemberRenamed(r, e, env, history);
    case _ =>
  }

  // ----- whole evaluations, with the cache

  lemma {:induction false} ReferenceRewritten(r: Renaming, e: Expr)
    requires r.from < |r.c.formulas| && IsReference(r.c.platform, e)
    ensures IsReference(r.c.platform, r.Tree(e)) && Names(r.After().formulas) == r.Names()[r.from := r.to]
    ensures r.Tree(e).key.value.text == if Refers(r.c.platform, r.Names(), r.from, e.key.value.text) then r.to else e.key.value.text
  {
    assert r.Tree(e.owner) == e.owner && r.Tree(e.key) == e.key;
  }

  lemma {:induction false} ReferenceRenamed(r: Renaming, e: Expr, env: Env, levels: nat, m: Memory)
    requires r.Admissible() && r.SafeTree(e) && IsReference(r.c.platform, e) && Scoped(r.c.platform, env)
    requires m.left > 2 && levels > 1
    ensures Recall(r.c, e, env, levels, m) == RecallFormula(r.c, Find(r.c, e.key.value.text), levels - 1, m.(left := m.left - 3))
    ensures Recall(r.After(), r.Tree(e), env, levels, m)
         == RecallFormula(r.After(), Find(r.c, e.key.value.text), levels - 1, m.(left := m.left - 3))
  {
    ReferenceLooksUp(r.c, e, env, levels, m);
    ReferenceRewritten(r, e);
    ReferenceLooksUp(r.After(), r.Tree(e), env, levels, m);
    LookupAfterRename(r.c.platform, r.Names(), r.from, r.to, e.key.value.text);
  }

  lemma {:induction false} ReferenceLooksUp(c: Config, e: Expr, env: Env, levels: nat, m: Memory)
    requires IsReference(c.platform, e) && Scoped(c.platform, env) && m.left > 2 && levels > 1
    ensures Recall(c, e, env, levels, m) == RecallFormula(c, Find(c, e.key.value.text), levels - 1, m.(left := m.left - 3))
  {
    var m1, m2, m3 := m.(left := m.left - 1), m.(left := m.left - 2), m.(left := m.left - 3);
    assert Recall(c, e.owner, env, levels - 1, m1) == Recalled(Yields(FormulaNamespace), m2);
    assert Recall(c, e.key, env, levels - 1, m2) == Recalled(Yields(e.key.value), m3);
    assert [] + [FormulaNamespace] == [FormulaNamespace];
    assert [FormulaNamespace] + [e.key.value] == [FormulaNamespace, e.key.value];
    assert Recall(c, e, env, levels, m) == RecallFrom(c, e, env, [], levels - 1, m1)
        == RecallFrom(c, e, env, [FormulaNamespace], levels - 1, m2)
        == RecallFrom(c, e, env, [FormulaNamespace, e.key.value], levels - 1, m3);
  }

  lemma {:induction false} ReferenceExhausted(c: Config, e: Expr, env: Env, levels: nat, m: Memory)
    requires IsReference(c.platform, e) && Scoped(c.platform, env) && (m.left <= 2 || levels <= 1)
    ensures Recall(c, e, env, levels, m)
         == Recalled(Exhausted, m.(left := if m.left == 0 then 0 else if levels == 0 then m.left - 1 else if m.left <= 2 then 0 else m.left - 2))
  {
    if m.left > 0 && levels > 0 {
      var m1 := m.(left := m.left - 1);
      assert Step(c.platform, c.row, e, env, []) == Evaluate(e.owner, env);
      assert Recall(c, e, env, levels, m) == RecallFrom(c, e, env, [], levels - 1, m1);
      if m.left == 1 || levels == 1 {
        var owner := Recall(c, e.owner, env, levels - 1, m1);
        assert owner.outcome == Exhausted && RecallFrom(c, e, env, [], levels - 1, m1) == owner;
      } else {
        assert Recall(c, e.owner, env, levels - 1, m1) == Recalled(Yields(FormulaNamespace), m.(left := 0));
        assert [] + [FormulaNamespace] == [FormulaNamespace];
        assert Step(c.platform, c.row, e, env, [FormulaNamespace]) == Evaluate(e.key, env);
        assert Recall(c, e.key, env, levels - 1, m.(left := 0)) == Recalled(Exhausted, m.(left := 0));
        assert RecallFrom(c, e, env, [], levels - 1, m1) == RecallFrom(c, e, env, [FormulaNamespace], levels - 1, m.(left := 0));
      }
    }
  }

  ghost predicate CleanRecalled(r: Recalled) {
    CleanOutcome(r.outcome) && CleanCache(r.memory.cache)
  }

  /** The same value or failure, the same budget spent, and the same cache. */
  lemma {:induction false} RecallRenamed(r: Renaming, e: Expr, env: Env, levels: nat, m: Memory)
    requires r.Admissible() && r.SafeTree(e) && Scoped(r.c.platform, env) && CleanCache(m.cache)
    ensures Recall(r.After(), r.Tree(e), env, levels, m) == Recall(r.c, e, env, levels, m)
    ensures CleanRecalled(Recall(r.c, e, env, levels, m))
    decreases m.left, 0
  {
    if m.left == 0 || levels == 0 {
    } else if !IsReference(r.c.platform, e) {
      RecallFromRenamed(r, e, env, [], levels - 1, m.(left := m.left - 1));
    } else if m.left > 2 && levels > 1 {
      ReferenceRenamed(r, e, env, levels, m);
      RecallFormulaRenamed(r, Find(r.c, e.key.value.text), levels - 1, m.(left := m.left - 3));
    } else {
      assert r.Tree(e.owner) == e.owner && r.Tree(e.key) == e.key;
      ReferenceExhausted(r.c, e, env, levels, m);
      ReferenceExhausted(r.After(), r.Tree(e), env, levels, m);
    }
  }

  lemma {:induction false} LiteralStays(c: Config, e: Expr, env: Env, history: seq<Value>, levels: nat, m: Memory)
    requires Literally(e, history) && Step(c.platform, c.row, e, env, history).Evaluate?
    ensures var next := Step(c.platform, c.row, e, env, history);
            var result := Recall(c, next.tree, next.env, levels, m);
            result.outcome.Yields? ==> Literally(e, history + [result.outcome.value])
  {
  }

  lemma {:induction false} RecallFromRenamed(r: Renaming, e: Expr, env: Env, history: seq<Value>, levels: nat, m: Memory)
    requires r.Admissible() && r.SafeTree(e) && !IsReference(r.c.platform, e)
    requires Scoped(r.c.platform, env) && CleanAll(history) && CleanCache(m.cache) && Literally(e, history)
    ensures RecallFrom(r.After(), r.Tree(e), env, history, levels, m) == RecallFrom(r.c, e, env, history, levels, m)
    ensures CleanRecalled(RecallFrom(r.c, e, env, history, levels, m))
    decreases m.left, 2
  {
    StepRenamed(r, e, env, history);
    match Step(r.c.platform, r.c.row, e, env, history)
    case Return(_) =>
    case Evaluate(child, scope) =>
      RecallRenamed(r, child, scope, levels, m);
      var result := Recall(r.c, child, scope, levels, m);
      if result.outcome.Yields? {
        LiteralStays(r.c, e, env, history, levels, m);
        RecallFromRenamed(r, e, env, history + [result.outcome.value], levels, result.memory);
      }
  }

  lemma {:induction false} RecallFormulaRenamed(r: Renaming, key: Option<nat>, levels: nat, m: Memory)
    requires r.Admissible() && CleanCache(m.cache) && (key.Some? ==> key.value < |r.c.formulas|)
    ensures RecallFormula(r.After(), key, levels, m) == RecallFormula(r.c, key, levels, m)
    ensures CleanRecalled(RecallFormula(r.c, key, levels, m))
    decreases m.left, 1
  {
    if key.Some? && key.value !in m.pending && key.value !in m.cache && r.c.formulas[key.value].body.Compiled? {
      RecallRenamed(r, r.c.formulas[key.value].body.tree, [], levels, m.(pending := m.pending + {key.value}));
    }
  }

  // ----- main result

  /** Renaming changes no answer: after any earlier requests, a request made in
      the renamed document has the outcome it had, at the same cost. */
  lemma {:induction false} RenamePreservesMeaning(r: Renaming, earlier: seq<Request>, request: Request)
    requires r.Admissible() && r.SafeTree(request.tree)
    requires forall i :: 0 <= i < |earlier| ==> r.SafeTree(earlier[i].tree)
    ensures var before := Ask(r.c, request, CacheAfter(r.c, earlier));
            var moved := seq(|earlier|, i requires 0 <= i < |earlier| => earlier[i].(tree := r.Tree(earlier[i].tree)));
            Ask(r.After(), request.(tree := r.Tree(request.tree)), CacheAfter(r.After(), moved)) == before
            && CleanCache(before.memory.cache)
  {
    var moved := seq(|earlier|, i requires 0 <= i < |earlier| => earlier[i].(tree := r.Tree(earlier[i].tree)));
    if earlier != [] {
      var last := earlier[|earlier| - 1];
      RenamePreservesMeaning(r, earlier[..|earlier| - 1], last);
      assert moved[..|moved| - 1] == seq(|earlier| - 1, i requires 0 <= i < |earlier| - 1 =>
                                         earlier[..|earlier| - 1][i].(tree := r.Tree(earlier[..|earlier| - 1][i].tree)));
    }
    RecallRenamed(r, request.tree, [], MAX_DEPTH, Memory(request.budget, CacheAfter(r.c, earlier), {}));
  }

  function PropertyRead(namespace: string, name: string): Expr {
    Member(Identifier(namespace), Literal(Str(name)), true)
  }

  /** A property ID `formula.name` reads the formula as a computed member; the
      renamed ID reads the same outcome. */
  lemma {:induction false} PropertyIdRenamed(r: Renaming, name: string, spelled: string, budget: nat)
    requires r.Admissible() && r.c.platform.lower(spelled) == "formula"
    requires !Captures(r.c.platform, r.Names(), r.from, r.to, name)
    ensures var renamed := if Refers(r.c.platform, r.Names(), r.from, name) then r.to else name;
            Ask(r.After(), Request(PropertyRead(spelled, renamed), budget), map[])
            == Ask(r.c, Request(PropertyRead(spelled, name), budget), map[])
  {
    var e := PropertyRead(spelled, name);
    assert Rewrite(r.c.platform, r.Names(), r.from, r.to, r.plain, e.owner) == e.owner;
    assert Rewrite(r.c.platform, r.Names(), r.from, r.to, r.plain, e.key) == e.key;
    RenamePreservesMeaning(r, [], Request(e, budget));
  }

  // ----- the conditions are needed

  /** `formula.name()`, with any spelling of `formula`. */
  function NamespaceCall(spelled: string, name: string): Expr { Call(Member(Identifier(spelled), Literal(Str(name)), false), []) }

  /** What calling a method of the formula namespace without arguments gives. */
  function Invoked(p: Platform, name: string): Checked {
    if name == "if" then Bad(Type)
    else
      match p.find(name, Some(FormulaNamespace))
      case None => Bad(UnknownFunction)
      case Some(definition) =>
        if exists parameter <- definition.parameters :: !parameter.optional && !parameter.variadic then Bad(Type)
        else definition.invoke([], Some(FormulaNamespace))
  }

  lemma {:induction false} InvokedSteps(c: Config, spelled: string, name: string)
    requires c.platform.lower(spelled) == "formula" && name != "if"
    ensures var e := NamespaceCall(spelled, name);
            && Step(c.platform, c.row, e, [], []) == Evaluate(Identifier(spelled), [])
            && Step(c.platform, c.row, e, [], [FormulaNamespace]) == Return(Invoked(c.platform, name))
  {
    assert [FormulaNamespace][1..] == [];
    match c.platform.find(name, Some(FormulaNamespace))
    case None =>
    case Some(definition) => assert definition.parameters[0..] == definition.parameters;
  }

  lemma {:induction false} InvokedAnswers(c: Config, spelled: string, name: string, budget: nat, cache: map<nat, Outcome>)
    requires c.platform.lower(spelled) == "formula" && budget >= 2
    ensures Ask(c, Request(NamespaceCall(spelled, name), budget), cache).outcome == OutcomeOf(Invoked(c.platform, name))
  {
    var e := NamespaceCall(spelled, name);
    var m := Memory(budget - 1, cache, {});
    if name == "if" {
      assert Step(c.platform, c.row, e, [], []) == Return(Bad(Type));
      assert RecallFrom(c, e, [], [], 255, m).outcome == Faults(Type);
    } else {
      InvokedSteps(c, spelled, name);
      assert Recall(c, Identifier(spelled), [], 255, m) == Recalled(Yields(FormulaNamespace), Memory(budget - 2, cache, {}));
      assert [] + [FormulaNamespace] == [FormulaNamespace];
      assert RecallFrom(c, e, [], [], 255, m) == RecallFrom(c, e, [], [FormulaNamespace], 255, Memory(budget - 2, cache, {}));
    }
  }

  lemma {:induction false} ComputedAnswers(c: Config, callee: Expr, budget: nat, cache: map<nat, Outcome>)
    requires callee.Member? && callee.computed && budget >= 2
    ensures Ask(c, Request(Call(callee, []), budget), cache).outcome == Faults(Unsupported)
  {
    var m := Memory(budget - 1, cache, {});
    assert Step(c.platform, c.row, Call(callee, []), [], []) == Return(Bad(Unsupported));
    assert RecallFrom(c, Call(callee, []), [], [], 255, m) == Recalled(Faults(Unsupported), m);
  }

  lemma {:induction false} CallRewritten(r: Renaming, spelled: string, name: string)
    requires r.from < |r.c.formulas| && r.c.platform.lower(spelled) == "formula"
    ensures r.Tree(NamespaceCall(spelled, name))
         == if !Refers(r.c.platform, r.Names(), r.from, name) then NamespaceCall(spelled, name)
            else if r.plain then NamespaceCall(spelled, r.to)
            else Call(Member(Identifier(spelled), Literal(Str(r.to)), true), [])
  {
    var p, names, callee := r.c.platform, r.Names(), Member(Identifier(spelled), Literal(Str(name)), false);
    assert IsReference(p, callee);
    assert r.Tree(Identifier(spelled)) == Identifier(spelled) && r.Tree(Literal(Str(name))) == Literal(Str(name));
    assert r.Tree(callee) == if !Refers(p, names, r.from, name) then callee else Member(Identifier(spelled), Literal(Str(r.to)), !r.plain);
    assert r.Tree(NamespaceCall(spelled, name)) == Call(r.Tree(callee), []);
  }

  /** The condition on callees is needed. `formula.name()` calls a method of the
      namespace and does not read the formula, but is rewritten as a reference. Whatever
      the caches hold, it keeps its outcome exactly when the name is none of the
      renamed formula's, or, for a new name that is an identifier, both methods give the
      same, or, for any other new name, the call was already unsupported. */
  lemma {:induction false} CalleeIsRenamed(r: Renaming, spelled: string, name: string, budget: nat, cache: map<nat, Outcome>, cache': map<nat, Outcome>)
    requires r.from < |r.c.formulas| && r.c.platform.lower(spelled) == "formula" && budget >= 2
    ensures var p, call := r.c.platform, NamespaceCall(spelled, name);
            Ask(r.After(), Request(r.Tree(call), budget), cache').outcome == Ask(r.c, Request(call, budget), cache).outcome
            <==> !Refers(p, r.Names(), r.from, name)
                 || (if r.plain then Invoked(p, r.to) == Invoked(p, name) else Invoked(p, name) == Bad(Unsupported))
  {
    CallRewritten(r, spelled, name);
    InvokedAnswers(r.c, spelled, name, budget, cache);
    if !Refers(r.c.platform, r.Names(), r.from, name) { InvokedAnswers(r.After(), spelled, name, budget, cache'); }
    else if r.plain { InvokedAnswers(r.After(), spelled, r.to, budget, cache'); }
    else { ComputedAnswers(r.After(), Member(Identifier(spelled), Literal(Str(r.to)), true), budget, cache'); }
  }

  /** A formula named like the built-in `isTruthy`: after its rename the call of the
      built-in asks for a method of the new name. */
  lemma {:induction false} BuiltinIsRenamed(r: Renaming, budget: nat)
    requires |r.c.formulas| == 1 && r.from == 0 && r.c.formulas[0].name == "isTruthy" && r.to == "total" && budget >= 2
    requires r.c.platform.lower("formula") == "formula"
    requires r.c.platform.find("isTruthy", Some(FormulaNamespace)) == Some(Definition([], (args, subject) => Good(Bool(true))))
    requires r.c.platform.find("total", Some(FormulaNamespace)) == None
    ensures var call := NamespaceCall("formula", "isTruthy");
            && Ask(r.c, Request(call, budget), map[]).outcome == Yields(Bool(true))
            && Ask(r.After(), Request(r.Tree(call), budget), map[]).outcome == Faults(if r.plain then UnknownFunction else Unsupported)
  {
    assert r.Names() == ["isTruthy"] && "isTruthy" in r.Names();
    CallRewritten(r, "formula", "isTruthy");
    InvokedAnswers(r.c, "formula", "isTruthy", budget, map[]);
    if r.plain { InvokedAnswers(r.After(), "formula", "total", budget, map[]); }
    else { ComputedAnswers(r.After(), Member(Identifier("formula"), Literal(Str("total")), true), budget, map[]); }
  }
}
