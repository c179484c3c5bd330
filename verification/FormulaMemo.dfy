/** The cached evaluator refines naive unfolding. */
module FormulaMemo {
  import opened Platforms
  import opened Syntax
  import opened Evaluation
  import opened Formulas

  // ----- naive unfolding is deterministic in the budget and the nesting limit

  lemma {:induction false} UnfoldMonotone(c: Config, tree: Expr, env: Env, levels: nat, budget: nat, levels': nat, budget': nat)
    requires levels <= levels' && budget <= budget'
    requires !Unfold(c, tree, env, levels, budget).outcome.Exhausted?
    ensures Unfold(c, tree, env, levels', budget')
         == Spent(Unfold(c, tree, env, levels, budget).outcome,
                  Unfold(c, tree, env, levels, budget).left + budget' - budget)
    decreases budget, 0
  {
    UnfoldFromMonotone(c, tree, env, [], levels - 1, budget - 1, levels' - 1, budget' - 1);
  }

  lemma {:induction false} UnfoldFromMonotone(c: Config, tree: Expr, env: Env, history: seq<Value>, levels: nat, budget: nat, levels': nat, budget': nat)
    requires levels <= levels' && budget <= budget'
    requires !UnfoldFrom(c, tree, env, history, levels, budget).outcome.Exhausted?
    ensures UnfoldFrom(c, tree, env, history, levels', budget')
         == Spent(UnfoldFrom(c, tree, env, history, levels, budget).outcome,
                  UnfoldFrom(c, tree, env, history, levels, budget).left + budget' - budget)
    decreases budget, 2
  {
    match Step(c.platform, c.row, tree, env, history)
    case Return(_) =>
    case Lookup(name) => UnfoldFormulaMonotone(c, Find(c, name), levels, budget, levels', budget');
    case Evaluate(child, scope) =>
      UnfoldMonotone(c, child, scope, levels, budget, levels', budget');
      var s := Unfold(c, child, scope, levels, budget);
      if s.outcome.Yields? {
        UnfoldFromMonotone(c, tree, env, history + [s.outcome.value], levels, s.left, levels', s.left + budget' - budget);
      }
  }

  lemma {:induction false} UnfoldFormulaMonotone(c: Config, key: Option<nat>, levels: nat, budget: nat, levels': nat, budget': nat)
    requires key.Some? ==> key.value < |c.formulas|
    requires levels <= levels' && budget <= budget'
    requires !UnfoldFormula(c, key, levels, budget).outcome.Exhausted?
    ensures UnfoldFormula(c, key, levels', budget')
         == Spent(UnfoldFormula(c, key, levels, budget).outcome,
                  UnfoldFormula(c, key, levels, budget).left + budget' - budget)
    decreases budget, 1
  {
    if key.Some? && c.formulas[key.value].body.Compiled? {
      UnfoldMonotone(c, c.formulas[key.value].body.tree, [], levels, budget, levels', budget');
    }
  }

  // ----- what a recalled outcome says about naive unfolding

  ghost predicate FormulaDone(c: Config, k: nat, levels: nat, budget: nat)
    requires k < |c.formulas|
  {
    !UnfoldFormula(c, Some(k), levels, budget).outcome.Exhausted?
  }

  /** Some formula being computed can be unfolded within these limits. */
  ghost predicate PendingDone(c: Config, pending: set<nat>, levels: nat, budget: nat) {
    exists p :: p in pending && p < |c.formulas| && FormulaDone(c, p, levels, budget)
  }

  /** A value or a fault is the naive one for some limits. A cycle can only be
      unfolded at the price of unfolding a formula that is being computed. */
  ghost predicate FormulaExplained(c: Config, k: nat, outcome: Outcome, pending: set<nat>)
    requires k < |c.formulas|
  {
    match outcome
    case Exhausted => false
    case Cyclic => forall levels: nat, budget: nat :: FormulaDone(c, k, levels, budget) ==> PendingDone(c, pending, levels, budget)
    case _ => exists levels: nat, budget: nat :: UnfoldFormula(c, Some(k), levels, budget).outcome == outcome
  }

  ghost predicate TreeExplained(c: Config, tree: Expr, env: Env, outcome: Outcome, pending: set<nat>) {
    match outcome
    case Exhausted => true
    case Cyclic => forall levels: nat, budget: nat :: !Unfold(c, tree, env, levels, budget).outcome.Exhausted? ==>
                     budget > 0 && PendingDone(c, pending, levels, budget - 1)
    case _ => exists levels: nat, budget: nat :: Unfold(c, tree, env, levels, budget).outcome == outcome
  }

  ghost predicate FromExplained(c: Config, tree: Expr, env: Env, history: seq<Value>, outcome: Outcome, pending: set<nat>) {
    match outcome
    case Exhausted => true
    case Cyclic => forall levels: nat, budget: nat :: !UnfoldFrom(c, tree, env, history, levels, budget).outcome.Exhausted? ==>
                     PendingDone(c, pending, levels, budget)
    case _ => exists levels: nat, budget: nat :: UnfoldFrom(c, tree, env, history, levels, budget).outcome == outcome
  }

  ghost predicate CacheExplained(c: Config, cache: map<nat, Outcome>, pending: set<nat>) {
    forall k :: k in cache ==> k < |c.formulas| && FormulaExplained(c, k, cache[k], pending)
  }

  /** The pending set is as before, and only a cycle adds cached cycles. */
  ghost predicate Restored(before: Memory, r: Recalled) {
    && r.memory.pending == before.pending
    && (!r.outcome.Cyclic? ==>
          forall k :: k in r.memory.cache && r.memory.cache[k].Cyclic? ==> k in before.cache && before.cache[k].Cyclic?)
  }

  lemma {:induction false} PendingDoneMonotone(c: Config, pending: set<nat>, levels: nat, budget: nat, pending': set<nat>, levels': nat, budget': nat)
    requires pending <= pending' && levels <= levels' && budget <= budget'
    requires PendingDone(c, pending, levels, budget)
    ensures PendingDone(c, pending', levels', budget')
  {
    var p :| p in pending && p < |c.formulas| && FormulaDone(c, p, levels, budget);
    UnfoldFormulaMonotone(c, Some(p), levels, budget, levels', budget');
    assert FormulaDone(c, p, levels', budget');
  }

  // ----- every recalled outcome is explained

  lemma {:induction false} RecallExplained(c: Config, tree: Expr, env: Env, levels: nat, m: Memory)
    requires CacheExplained(c, m.cache, m.pending)
    ensures var r := Recall(c, tree, env, levels, m);
            && TreeExplained(c, tree, env, r.outcome, m.pending)
            && CacheExplained(c, r.memory.cache, m.pending) && Restored(m, r)
    decreases m.left, 0
  {
    if m.left > 0 && levels > 0 {
      var m' := m.(left := m.left - 1);
      RecallFromExplained(c, tree, env, [], levels - 1, m');
      TreeFromRoot(c, tree, env, RecallFrom(c, tree, env, [], levels - 1, m').outcome, m.pending);
    }
  }

  lemma {:induction false} TreeFromRoot(c: Config, tree: Expr, env: Env, outcome: Outcome, pending: set<nat>)
    requires FromExplained(c, tree, env, [], outcome, pending)
    ensures TreeExplained(c, tree, env, outcome, pending)
  {
    if outcome.Cyclic? {
      forall levels: nat, budget: nat | !Unfold(c, tree, env, levels, budget).outcome.Exhausted?
        ensures budget > 0 && PendingDone(c, pending, levels, budget - 1)
      {
        assert !UnfoldFrom(c, tree, env, [], levels - 1, budget - 1).outcome.Exhausted?;
        PendingDoneMonotone(c, pending, levels - 1, budget - 1, pending, levels, budget - 1);
      }
    } else if !outcome.Exhausted? {
      var levels: nat, budget: nat :| UnfoldFrom(c, tree, env, [], levels, budget).outcome == outcome;
      assert Unfold(c, tree, env, levels + 1, budget + 1).outcome == outcome;
    }
  }

  lemma {:induction false} RecallFromExplained(c: Config, tree: Expr, env: Env, history: seq<Value>, levels: nat, m: Memory)
    requires CacheExplained(c, m.cache, m.pending)
    ensures var r := RecallFrom(c, tree, env, history, levels, m);
            && FromExplained(c, tree, env, history, r.outcome, m.pending)
            && CacheExplained(c, r.memory.cache, m.pending) && Restored(m, r)
    decreases m.left, 2
  {
    match Step(c.platform, c.row, tree, env, history)
    case Return(result) =>
      assert UnfoldFrom(c, tree, env, history, 0, 0).outcome == OutcomeOf(result);
    case Lookup(name) =>
      RecallFormulaExplained(c, Find(c, name), levels, m);
      FromLookup(c, tree, env, history, name, RecallFormula(c, Find(c, name), levels, m).outcome, m.pending);
    case Evaluate(child, scope) =>
      RecallExplained(c, child, scope, levels, m);
      var r := Recall(c, child, scope, levels, m);
      if r.outcome.Yields? {
        RecallFromExplained(c, tree, env, history + [r.outcome.value], levels, r.memory);
        var rest := RecallFrom(c, tree, env, history + [r.outcome.value], levels, r.memory);
        FromChild(c, tree, env, history, child, scope, r.outcome.value, rest.outcome, m.pending);
      } else {
        FromFailedChild(c, tree, env, history, child, scope, r.outcome, m.pending);
      }
  }

  lemma {:induction false} FromLookup(c: Config, tree: Expr, env: Env, history: seq<Value>, name: string, outcome: Outcome, pending: set<nat>)
    requires Step(c.platform, c.row, tree, env, history) == Lookup(name)
    requires match Find(c, name)
             case None => outcome == Yields(Null)
             case Some(k) => outcome.Exhausted? || FormulaExplained(c, k, outcome, pending)
    ensures FromExplained(c, tree, env, history, outcome, pending)
  {
    match Find(c, name)
    case None =>
      assert UnfoldFrom(c, tree, env, history, 0, 0).outcome == outcome;
    case Some(k) =>
      if outcome.Cyclic? {
        forall levels: nat, budget: nat | !UnfoldFrom(c, tree, env, history, levels, budget).outcome.Exhausted?
          ensures PendingDone(c, pending, levels, budget)
        {
          assert FormulaDone(c, k, levels, budget);
        }
      } else if !outcome.Exhausted? {
        var levels: nat, budget: nat :| UnfoldFormula(c, Some(k), levels, budget).outcome == outcome;
        assert UnfoldFrom(c, tree, env, history, levels, budget).outcome == outcome;
      }
  }

  lemma {:induction false} FromFailedChild(c: Config, tree: Expr, env: Env, history: seq<Value>, child: Expr, scope: Env, outcome: Outcome, pending: set<nat>)
    requires Step(c.platform, c.row, tree, env, history) == Evaluate(child, scope)
    requires !outcome.Yields? && TreeExplained(c, child, scope, outcome, pending)
    ensures FromExplained(c, tree, env, history, outcome, pending)
  {
    if outcome.Cyclic? {
      forall levels: nat, budget: nat | !UnfoldFrom(c, tree, env, history, levels, budget).outcome.Exhausted?
        ensures PendingDone(c, pending, levels, budget)
      {
        assert !Unfold(c, child, scope, levels, budget).outcome.Exhausted?;
        PendingDoneMonotone(c, pending, levels, budget - 1, pending, levels, budget);
      }
    } else if outcome.Faults? {
      var levels: nat, budget: nat :| Unfold(c, child, scope, levels, budget).outcome == outcome;
      assert UnfoldFrom(c, tree, env, history, levels, budget).outcome == outcome;
    }
  }

  lemma {:induction false} FromChild(c: Config, tree: Expr, env: Env, history: seq<Value>, child: Expr, scope: Env, value: Value, outcome: Outcome, pending: set<nat>)
    requires Step(c.platform, c.row, tree, env, history) == Evaluate(child, scope)
    requires TreeExplained(c, child, scope, Yields(value), pending)
    requires FromExplained(c, tree, env, history + [value], outcome, pending)
    ensures FromExplained(c, tree, env, history, outcome, pending)
  {
    var l0: nat, b0: nat :| Unfold(c, child, scope, l0, b0).outcome == Yields(value);
    if outcome.Cyclic? {
      forall levels: nat, budget: nat | !UnfoldFrom(c, tree, env, history, levels, budget).outcome.Exhausted?
        ensures PendingDone(c, pending, levels, budget)
      {
        var s := Unfold(c, child, scope, levels, budget);
        UnfoldAgrees(c, child, scope, levels, budget, l0, b0);
        assert !UnfoldFrom(c, tree, env, history + [value], levels, s.left).outcome.Exhausted?;
        PendingDoneMonotone(c, pending, levels, s.left, pending, levels, budget);
      }
    } else if !outcome.Exhausted? {
      var l1: nat, b1: nat :| UnfoldFrom(c, tree, env, history + [value], l1, b1).outcome == outcome;
      var levels, budget := l0 + l1, b0 + b1;
      UnfoldMonotone(c, child, scope, l0, b0, levels, budget);
      UnfoldFromMonotone(c, tree, env, history + [value], l1, b1, levels, Unfold(c, child, scope, levels, budget).left);
      assert UnfoldFrom(c, tree, env, history, levels, budget).outcome == outcome;
    }
  }

  /** Two completed unfoldings of a tree have the same outcome. */
  lemma {:induction false} UnfoldAgrees(c: Config, tree: Expr, env: Env, levels: nat, budget: nat, levels': nat, budget': nat)
    requires !Unfold(c, tree, env, levels, budget).outcome.Exhausted?
    requires !Unfold(c, tree, env, levels', budget').outcome.Exhausted?
    ensures Unfold(c, tree, env, levels, budget).outcome == Unfold(c, tree, env, levels', budget').outcome
  {
    UnfoldMonotone(c, tree, env, levels, budget, levels + levels', budget + budget');
    UnfoldMonotone(c, tree, env, levels', budget', levels + levels', budget + budget');
  }

  lemma {:induction false} RecallFormulaExplained(c: Config, key: Option<nat>, levels: nat, m: Memory)
    requires key.Some? ==> key.value < |c.formulas|
    requires CacheExplained(c, m.cache, m.pending)
    ensures var r := RecallFormula(c, key, levels, m);
            && (match key
                case None => r.outcome == Yields(Null)
                case Some(k) => r.outcome.Exhausted? || FormulaExplained(c, k, r.outcome, m.pending))
            && CacheExplained(c, r.memory.cache, m.pending) && Restored(m, r)
    decreases m.left, 1
  {
    if key.Some? && key.value !in m.pending && key.value !in m.cache {
      var k := key.value;
      match c.formulas[k].body
      case Broken =>
        assert UnfoldFormula(c, Some(k), 0, 0).outcome == Faults(Parse);
      case Compiled(tree) =>
        var inner := m.(pending := m.pending + {k});
        CacheWeaken(c, m.cache, m.pending, inner.pending);
        RecallExplained(c, tree, [], levels, inner);
        var r := Recall(c, tree, [], levels, inner);
        FormulaFromTree(c, k, tree, r.outcome, m.pending);
        CachePop(c, m, r, k);
    }
  }

  lemma {:induction false} CacheWeaken(c: Config, cache: map<nat, Outcome>, pending: set<nat>, pending': set<nat>)
    requires pending <= pending' && CacheExplained(c, cache, pending)
    ensures CacheExplained(c, cache, pending')
  {
    forall k | k in cache && cache[k].Cyclic?
      ensures FormulaExplained(c, k, cache[k], pending')
    {
      forall levels: nat, budget: nat | FormulaDone(c, k, levels, budget)
        ensures PendingDone(c, pending', levels, budget)
      {
        PendingDoneMonotone(c, pending, levels, budget, pending', levels, budget);
      }
    }
  }

  /** Explaining a formula's body with the formula pending explains the formula without it. */
  lemma {:induction false} FormulaFromTree(c: Config, k: nat, tree: Expr, outcome: Outcome, pending: set<nat>)
    requires k < |c.formulas| && c.formulas[k].body == Compiled(tree)
    requires TreeExplained(c, tree, [], outcome, pending + {k})
    ensures outcome.Exhausted? || FormulaExplained(c, k, outcome, pending)
  {
    if outcome.Cyclic? {
      forall levels: nat, budget: nat | FormulaDone(c, k, levels, budget)
        ensures PendingDone(c, pending, levels, budget)
      {
        CycleDescends(c, k, tree, pending, levels, budget);
      }
    } else if !outcome.Exhausted? {
      var levels: nat, budget: nat :| Unfold(c, tree, [], levels, budget).outcome == outcome;
      assert UnfoldFormula(c, Some(k), levels, budget).outcome == outcome;
    }
  }

  /** A formula that needs itself has no least budget, so its cycle is another pending formula's. */
  lemma {:induction false} CycleDescends(c: Config, k: nat, tree: Expr, pending: set<nat>, levels: nat, budget: nat)
    requires k < |c.formulas| && c.formulas[k].body == Compiled(tree)
    requires TreeExplained(c, tree, [], Cyclic, pending + {k})
    requires FormulaDone(c, k, levels, budget)
    ensures PendingDone(c, pending, levels, budget)
  {
    assert !Unfold(c, tree, [], levels, budget).outcome.Exhausted?;
    var p :| p in pending + {k} && p < |c.formulas| && FormulaDone(c, p, levels, budget - 1);
    if p == k {
      CycleDescends(c, k, tree, pending, levels, budget - 1);
      PendingDoneMonotone(c, pending, levels, budget - 1, pending, levels, budget);
    } else {
      assert PendingDone(c, pending, levels, budget - 1);
      PendingDoneMonotone(c, pending, levels, budget - 1, pending, levels, budget);
    }
  }

  /** Once formula `k` is done, nothing in the cache is explained by `k` any more. */
  lemma {:induction false} CachePop(c: Config, m: Memory, r: Recalled, k: nat)
    requires k < |c.formulas|
    requires CacheExplained(c, m.cache, m.pending)
    requires CacheExplained(c, r.memory.cache, m.pending + {k})
    requires Restored(m.(pending := m.pending + {k}), r)
    requires r.outcome.Exhausted? || FormulaExplained(c, k, r.outcome, m.pending)
    ensures CacheExplained(c, r.memory.cache, m.pending)
  {
    forall j | j in r.memory.cache
      ensures j < |c.formulas| && FormulaExplained(c, j, r.memory.cache[j], m.pending)
    {
      if r.memory.cache[j].Cyclic? && r.outcome.Cyclic? {
        forall levels: nat, budget: nat | FormulaDone(c, j, levels, budget)
          ensures PendingDone(c, m.pending, levels, budget)
        {
          var p :| p in m.pending + {k} && p < |c.formulas| && FormulaDone(c, p, levels, budget);
        }
      }
    }
  }

  // ----- the cache never costs budget

  lemma {:induction false} RecallThrifty(c: Config, tree: Expr, env: Env, levels: nat, budget: nat, levels': nat, m: Memory)
    requires CacheExplained(c, m.cache, m.pending)
    requires !Unfold(c, tree, env, levels, budget).outcome.Exhausted?
    requires levels <= levels' && budget - Unfold(c, tree, env, levels, budget).left <= m.left
    ensures var s, r := Unfold(c, tree, env, levels, budget), Recall(c, tree, env, levels', m);
            && !r.outcome.Exhausted?
            && (!r.outcome.Cyclic? ==> r.outcome == s.outcome && m.left - r.memory.left <= budget - s.left)
    decreases m.left, 0
  {
    RecallFromThrifty(c, tree, env, [], levels - 1, budget - 1, levels' - 1, m.(left := m.left - 1));
  }

  lemma {:induction false} RecallFromThrifty(c: Config, tree: Expr, env: Env, history: seq<Value>, levels: nat, budget: nat, levels': nat, m: Memory)
    requires CacheExplained(c, m.cache, m.pending)
    requires !UnfoldFrom(c, tree, env, history, levels, budget).outcome.Exhausted?
    requires levels <= levels' && budget - UnfoldFrom(c, tree, env, history, levels, budget).left <= m.left
    ensures var s, r := UnfoldFrom(c, tree, env, history, levels, budget), RecallFrom(c, tree, env, history, levels', m);
            && !r.outcome.Exhausted?
            && (!r.outcome.Cyclic? ==> r.outcome == s.outcome && m.left - r.memory.left <= budget - s.left)
    decreases m.left, 2
  {
    match Step(c.platform, c.row, tree, env, history)
    case Return(_) =>
    case Lookup(name) => RecallFormulaThrifty(c, Find(c, name), levels, budget, levels', m);
    case Evaluate(child, scope) =>
      var s := Unfold(c, child, scope, levels, budget);
      RecallThrifty(c, child, scope, levels, budget, levels', m);
      RecallExplained(c, child, scope, levels', m);
      var r := Recall(c, child, scope, levels', m);
      if r.outcome.Yields? {
        RecallFromThrifty(c, tree, env, history + [r.outcome.value], levels, s.left, levels', r.memory);
      }
  }

  lemma {:induction false} RecallFormulaThrifty(c: Config, key: Option<nat>, levels: nat, budget: nat, levels': nat, m: Memory)
    requires key.Some? ==> key.value < |c.formulas|
    requires CacheExplained(c, m.cache, m.pending)
    requires !UnfoldFormula(c, key, levels, budget).outcome.Exhausted?
    requires levels <= levels' && budget - UnfoldFormula(c, key, levels, budget).left <= m.left
    ensures var s, r := UnfoldFormula(c, key, levels, budget), RecallFormula(c, key, levels', m);
            && !r.outcome.Exhausted?
            && (!r.outcome.Cyclic? ==> r.outcome == s.outcome && m.left - r.memory.left <= budget - s.left)
    decreases m.left, 1
  {
    if key.Some? && key.value !in m.pending {
      var k := key.value;
      if k in m.cache {
        CachedAgrees(c, k, m.cache[k], m.pending, levels, budget);
      } else if c.formulas[k].body.Compiled? {
        var inner := m.(pending := m.pending + {k});
        CacheWeaken(c, m.cache, m.pending, inner.pending);
        RecallThrifty(c, c.formulas[k].body.tree, [], levels, budget, levels', inner);
      }
    }
  }

  lemma {:induction false} CachedAgrees(c: Config, k: nat, outcome: Outcome, pending: set<nat>, levels: nat, budget: nat)
    requires k < |c.formulas| && FormulaExplained(c, k, outcome, pending)
    requires FormulaDone(c, k, levels, budget)
    ensures outcome.Cyclic? || outcome == UnfoldFormula(c, Some(k), levels, budget).outcome
  {
    if !outcome.Cyclic? {
      var l0: nat, b0: nat :| UnfoldFormula(c, Some(k), l0, b0).outcome == outcome;
      UnfoldFormulaMonotone(c, Some(k), l0, b0, levels + l0, budget + b0);
      UnfoldFormulaMonotone(c, Some(k), levels, budget, levels + l0, budget + b0);
    }
  }

  // ----- main results

  /** `evaluateBaseExpressionOrThrow`: each request has its own budget and starts outside any formula. */
  const MAX_DEPTH: nat := 256

  datatype Request = Request(tree: Expr, budget: nat)

  function Ask(c: Config, request: Request, cache: map<nat, Outcome>): Recalled {
    Recall(c, request.tree, [], MAX_DEPTH, Memory(request.budget, cache, {}))
  }

  /** The cache of a row's context after it has answered `requests` in order. */
  function CacheAfter(c: Config, requests: seq<Request>): map<nat, Outcome> {
    if requests == [] then map[]
    else
      var earlier := requests[..|requests| - 1];
      Ask(c, requests[|requests| - 1], CacheAfter(c, earlier)).memory.cache
  }

  lemma {:induction false} ReachableCacheExplained(c: Config, requests: seq<Request>)
    ensures CacheExplained(c, CacheAfter(c, requests), {})
  {
    if requests != [] {
      var earlier, last := requests[..|requests| - 1], requests[|requests| - 1];
      ReachableCacheExplained(c, earlier);
      RecallExplained(c, last.tree, [], MAX_DEPTH, Memory(last.budget, CacheAfter(c, earlier), {}));
    }
  }

  /** Whatever was asked before, a request whose naive unfolding fits its
      budget gets the naive outcome, and spends no more than unfolding would. */
  lemma {:induction false} CachedRefinesNaive(c: Config, earlier: seq<Request>, request: Request)
    requires !Unfold(c, request.tree, [], MAX_DEPTH, request.budget).outcome.Exhausted?
    ensures Ask(c, request, CacheAfter(c, earlier)).outcome == Unfold(c, request.tree, [], MAX_DEPTH, request.budget).outcome
    ensures Ask(c, request, CacheAfter(c, earlier)).memory.left >= Unfold(c, request.tree, [], MAX_DEPTH, request.budget).left
  {
    ReachableCacheExplained(c, earlier);
    var m := Memory(request.budget, CacheAfter(c, earlier), {});
    RecallExplained(c, request.tree, [], MAX_DEPTH, m);
    RecallThrifty(c, request.tree, [], MAX_DEPTH, request.budget, MAX_DEPTH, m);
  }

  /** Conversely: a value or fault is the naive one for some limits, and a
      cycle is reported only when no budget and no nesting limit would do. */
  lemma {:induction false} CachedIsNaive(c: Config, earlier: seq<Request>, request: Request)
    ensures var outcome := Ask(c, request, CacheAfter(c, earlier)).outcome;
            match outcome
            case Exhausted => true
            case Cyclic => forall levels: nat, budget: nat :: Unfold(c, request.tree, [], levels, budget).outcome.Exhausted?
            case _ => exists levels: nat, budget: nat :: Unfold(c, request.tree, [], levels, budget).outcome == outcome
  {
    ReachableCacheExplained(c, earlier);
    RecallExplained(c, request.tree, [], MAX_DEPTH, Memory(request.budget, CacheAfter(c, earlier), {}));
  }

  /** Every exit empties the pending set and no budget failure is ever cached. */
  lemma {:induction false} ExitsAreClean(c: Config, earlier: seq<Request>, request: Request)
    ensures var r := Ask(c, request, CacheAfter(c, earlier));
            r.memory.pending == {} && forall k :: k in r.memory.cache ==> !r.memory.cache[k].Exhausted?
  {
    ReachableCacheExplained(c, earlier);
    RecallExplained(c, request.tree, [], MAX_DEPTH, Memory(request.budget, CacheAfter(c, earlier), {}));
  }
}
