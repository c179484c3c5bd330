/** The evaluator in the form the source gives it: one context per row whose
    cache, pending set, remaining budget and depth are updated in place. */
module FormulaContext {
  import opened Platforms
  import opened Syntax
  import opened Evaluation
  import opened Formulas
  import opened FormulaMemo

  class Context {
    const config: Config
    var cache: map<nat, Outcome>
    var pending: set<nat>
    var remaining: nat
    var depth: nat

    constructor (config: Config)
      ensures this.config == config && cache == map[] && pending == {} && depth == 0
    {
      this.config := config;
      cache, pending, remaining, depth := map[], {}, 0, 0;
    }

    function Snapshot(): Memory
      reads this
    {
      Memory(remaining, cache, pending)
    }

    /** `evaluateTree`: a child is entered until one fails, or the node is done. */
    method EvaluateTree(tree: Expr, env: Env) returns (outcome: Outcome)
      requires depth <= MAX_DEPTH
      modifies this
      ensures depth == old(depth)
      ensures Recalled(outcome, Snapshot()) == Recall(config, tree, env, MAX_DEPTH - depth, old(Snapshot()))
      decreases remaining, 0
    {
      if remaining == 0 { return Exhausted; }
      remaining := remaining - 1;
      if depth == MAX_DEPTH { return Exhausted; }
      depth := depth + 1;
      outcome := EvaluateNode(tree, env);
      depth := depth - 1;
    }

    /** The `switch` on the node, child after child. */
    method EvaluateNode(tree: Expr, env: Env) returns (outcome: Outcome)
      requires depth <= MAX_DEPTH
      modifies this
      ensures depth == old(depth)
      ensures GoesOn(config, tree, env, [], MAX_DEPTH - depth, old(Snapshot()), Recalled(outcome, Snapshot()))
      decreases remaining, 2
    {
      var history := [];
      ghost var goal := Goal(config, tree, env, history, MAX_DEPTH - depth, Snapshot());
      while true
        invariant depth == old(depth) && remaining <= old(remaining)
        invariant GoesOn(config, tree, env, history, MAX_DEPTH - depth, Snapshot(), goal)
        decreases remaining
      {
        var next := NextStep(tree, env, history);
        StepTaken(config, tree, env, history, MAX_DEPTH - depth, Snapshot(), goal, next);
        match next
        case Return(result) =>
          return OutcomeOf(result);
        case Lookup(name) =>
          outcome := GetFormula(name);
          return;
        case Evaluate(child, scope) =>
          outcome := EvaluateTree(child, scope);
          if !outcome.Yields? { return; }
          history := history + [outcome.value];
      }
    }

    method NextStep(tree: Expr, env: Env, history: seq<Value>) returns (next: Next)
      ensures Takes(config, tree, env, history, next)
    {
      next := Step(config.platform, config.row, tree, env, history);
    }

    /** The `get` of the formula namespace. */
    method GetFormula(name: string) returns (outcome: Outcome)
      requires depth <= MAX_DEPTH
      modifies this
      ensures depth == old(depth)
      ensures Recalled(outcome, Snapshot()) == RecallFormula(config, Find(config, name), MAX_DEPTH - depth, old(Snapshot()))
      decreases remaining, 1
    {
      var key := Find(config, name);
      if key.None? { return Yields(Null); }
      var k := key.value;
      if k in pending { return Cyclic; }
      if k !in cache {
        pending := pending + {k};
        match config.formulas[k].body {
          case Broken => outcome := Faults(Parse);
          case Compiled(tree) => outcome := EvaluateTree(tree, []);
        }
        pending := pending - {k};
        if outcome.Exhausted? { return; }
        cache := cache[k := outcome];
      }
      return cache[k];
    }

    /** A strict evaluation with a budget of its own, outside any formula. */
    method Answer(request: Request) returns (outcome: Outcome)
      requires pending == {} && depth == 0
      modifies this
      ensures pending == {} && depth == 0
      ensures outcome == Ask(config, request, old(cache)).outcome
      ensures cache == Ask(config, request, old(cache)).memory.cache
      ensures CacheExplained(config, old(cache), {}) ==> CacheExplained(config, cache, {})
    {
      remaining := request.budget;
      outcome := EvaluateTree(request.tree, []);
      PendingRestored(config, request.tree, [], MAX_DEPTH, Memory(request.budget, old(cache), {}));
      if CacheExplained(config, old(cache), {}) {
        RecallExplained(config, request.tree, [], MAX_DEPTH, Memory(request.budget, old(cache), {}));
      }
    }
  }

  /** Going on from the history ends so; stated so that it is unfolded only on demand. */
  ghost predicate GoesOn(c: Config, tree: Expr, env: Env, history: seq<Value>, levels: nat, m: Memory, goal: Recalled) {
    forall h {:trigger RecallFrom(c, tree, env, h, levels, m)} :: h == history ==> RecallFrom(c, tree, env, h, levels, m) == goal
  }

  lemma {:induction false} Goal(c: Config, tree: Expr, env: Env, history: seq<Value>, levels: nat, m: Memory) returns (goal: Recalled)
    ensures GoesOn(c, tree, env, history, levels, m, goal)
  {
    goal := RecallFrom(c, tree, env, history, levels, m);
  }

  lemma {:induction false} StepTaken(c: Config, tree: Expr, env: Env, history: seq<Value>, levels: nat, m: Memory, goal: Recalled, next: Next)
    requires GoesOn(c, tree, env, history, levels, m, goal) && Takes(c, tree, env, history, next)
    ensures next.Return? ==> goal == Recalled(OutcomeOf(next.result), m)
    ensures next.Lookup? ==> goal == RecallFormula(c, Find(c, next.name), levels, m)
    ensures next.Evaluate? ==>
              var r := Recall(c, next.tree, next.env, levels, m);
              if r.outcome.Yields? then GoesOn(c, tree, env, history + [r.outcome.value], levels, r.memory, goal) else goal == r
  {
    assert RecallFrom(c, tree, env, history, levels, m) == goal;
  }

  lemma {:induction false} PendingRestored(c: Config, tree: Expr, env: Env, levels: nat, m: Memory)
    ensures Recall(c, tree, env, levels, m).memory.pending == m.pending
    decreases m.left, 0
  {
    if m.left > 0 && levels > 0 { PendingRestoredFrom(c, tree, env, [], levels - 1, m.(left := m.left - 1)); }
  }

  lemma {:induction false} PendingRestoredFrom(c: Config, tree: Expr, env: Env, history: seq<Value>, levels: nat, m: Memory)
    ensures RecallFrom(c, tree, env, history, levels, m).memory.pending == m.pending
    decreases m.left, 2
  {
    match Step(c.platform, c.row, tree, env, history)
    case Return(_) =>
    case Lookup(name) =>
      var key := Find(c, name);
      if key.Some? && key.value !in m.pending && key.value !in m.cache && c.formulas[key.value].body.Compiled? {
        PendingRestored(c, c.formulas[key.value].body.tree, [], levels, m.(pending := m.pending + {key.value}));
      }
    case Evaluate(child, scope) =>
      PendingRestored(c, child, scope, levels, m);
      var r := Recall(c, child, scope, levels, m);
      if r.outcome.Yields? { PendingRestoredFrom(c, tree, env, history + [r.outcome.value], levels, r.memory); }
  }
}
