/** Formula evaluation: naive unfolding, and the cached evaluator that refines it.

    `Unfold` evaluates a formula's body again at every reference. `Recall` is
    what the source does: it keeps the outcome of each formula of the row and
    reports a cycle when a formula is needed while it is being computed. Both
    spend one unit of budget and one nesting level for each node they enter.
 */
module Formulas {
  import opened Platforms
  import opened Syntax
  import opened Evaluation

  /** A formula that failed to parse throws its parse error when it is needed. */
  datatype Body = Compiled(tree: Expr) | Broken
  datatype Formula = Formula(name: string, body: Body)

  /** Formulas are known by their position; their names are the keys of a record. */
  datatype Config = Config(platform: Platform, row: Row, formulas: seq<Formula>)

  datatype Outcome = Yields(value: Value) | Faults(fault: Fault) | Cyclic | Exhausted

  function OutcomeOf(c: Checked): Outcome {
    match c
    case Good(v) => Yields(v)
    case Bad(f) => Faults(f)
  }

  function Names(formulas: seq<Formula>): (names: seq<string>)
    ensures |names| == |formulas|
  {
    seq(|formulas|, i requires 0 <= i < |formulas| => formulas[i].name)
  }

  function Find(c: Config, name: string): (r: Option<nat>)
    ensures r.Some? ==> r.value < |c.formulas|
  {
    OwnKey(c.platform, Names(c.formulas), name)
  }

  /** The node's next step is this one; stated so that it is unfolded only on demand. */
  ghost predicate Takes(c: Config, tree: Expr, env: Env, history: seq<Value>, next: Next) {
    forall h {:trigger Step(c.platform, c.row, tree, env, h)} :: h == history ==> Step(c.platform, c.row, tree, env, h) == next
  }

  // ----- naive unfolding

  datatype Spent = Spent(outcome: Outcome, left: nat)

  function Unfold(c: Config, tree: Expr, env: Env, levels: nat, budget: nat): (s: Spent)
    ensures s.left <= budget && s.outcome != Cyclic
    ensures s.outcome != Exhausted ==> s.left < budget
    decreases budget, 0
  {
    if budget == 0 then Spent(Exhausted, 0)
    else if levels == 0 then Spent(Exhausted, budget - 1)
    else UnfoldFrom(c, tree, env, [], levels - 1, budget - 1)
  }

  function UnfoldFrom(c: Config, tree: Expr, env: Env, history: seq<Value>, levels: nat, budget: nat): (s: Spent)
    ensures s.left <= budget && s.outcome != Cyclic
    decreases budget, 2
  {
    match Step(c.platform, c.row, tree, env, history)
    case Return(result) => Spent(OutcomeOf(result), budget)
    case Lookup(name) => UnfoldFormula(c, Find(c, name), levels, budget)
    case Evaluate(child, scope) =>
      var s := Unfold(c, child, scope, levels, budget);
      if s.outcome.Yields? then UnfoldFrom(c, tree, env, history + [s.outcome.value], levels, s.left) else s
  }

  function UnfoldFormula(c: Config, key: Option<nat>, levels: nat, budget: nat): (s: Spent)
    requires key.Some? ==> key.value < |c.formulas|
    ensures s.left <= budget && s.outcome != Cyclic
    decreases budget, 1
  {
    match key
    case None => Spent(Yields(Null), budget)
    case Some(k) =>
      match c.formulas[k].body
      case Broken => Spent(Faults(Parse), budget)
      case Compiled(tree) => Unfold(c, tree, [], levels, budget)
  }

  // ----- the cached evaluator

  /** The budget left, the row's formula cache and the formulas being computed. */
  datatype Memory = Memory(left: nat, cache: map<nat, Outcome>, pending: set<nat>)

  datatype Recalled = Recalled(outcome: Outcome, memory: Memory)

  function Recall(c: Config, tree: Expr, env: Env, levels: nat, m: Memory): (r: Recalled)
    ensures r.memory.left <= m.left
    ensures r.outcome != Exhausted ==> r.memory.left < m.left
    decreases m.left, 0
  {
    if m.left == 0 then Recalled(Exhausted, m)
    else if levels == 0 then Recalled(Exhausted, m.(left := m.left - 1))
    else RecallFrom(c, tree, env, [], levels - 1, m.(left := m.left - 1))
  }

  function RecallFrom(c: Config, tree: Expr, env: Env, history: seq<Value>, levels: nat, m: Memory): (r: Recalled)
    ensures r.memory.left <= m.left
    decreases m.left, 2
  {
    match Step(c.platform, c.row, tree, env, history)
    case Return(result) => Recalled(OutcomeOf(result), m)
    case Lookup(name) => RecallFormula(c, Find(c, name), levels, m)
    case Evaluate(child, scope) =>
      var r := Recall(c, child, scope, levels, m);
      if r.outcome.Yields? then RecallFrom(c, tree, env, history + [r.outcome.value], levels, r.memory) else r
  }

  function RecallFormula(c: Config, key: Option<nat>, levels: nat, m: Memory): (r: Recalled)
    requires key.Some? ==> key.value < |c.formulas|
    ensures r.memory.left <= m.left
    decreases m.left, 1
  {
    match key
    case None => Recalled(Yields(Null), m)
    case Some(k) =>
      if k in m.pending then Recalled(Cyclic, m)
      else if k in m.cache then Recalled(m.cache[k], m)
      else
        var r := match c.formulas[k].body
                 case Broken => Recalled(Faults(Parse), m.(pending := m.pending + {k}))
                 case Compiled(tree) => Recall(c, tree, [], levels, m.(pending := m.pending + {k}));
        var after := r.memory.(pending := r.memory.pending - {k});
        if r.outcome.Exhausted? then Recalled(r.outcome, after)
        else Recalled(r.outcome, after.(cache := after.cache[k := r.outcome]))
  }
}
