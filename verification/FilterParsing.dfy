/** From stored filters to the filter a query tests. */
module FilterParsing {
  import opened Platforms
  import opened Parsing
  import opened Formulas
  import opened Filters
  import opened FilterMeaning
  import opened FilterExact

  /** A value read from a Base document; mappings keep the order of their keys. */
  datatype Stored =
    | Empty
    | Flag(truth: bool)
    | Amount(number: Number)
    | Text(text: string)
    | Sequence(items: seq<Stored>)
    | Mapping(keys: seq<string>, values: seq<Stored>)

  /** `!!value`. */
  predicate Given(p: Platform, v: Stored) {
    match v
    case Empty => false
    case Flag(b) => b
    case Amount(n) => p.numberTruthy(n)
    case Text(s) => s != ""
    case Sequence(_) => true
    case Mapping(_, _) => true
  }

  const MAX_FILTER_DEPTH: nat := 256

  function KindOf(key: string): Option<Kind> {
    if key == "and" then Some(And) else if key == "or" then Some(Or)
    else if key == "not" then Some(Not) else None
  }

  /** `parseFilter`; raising is `None`. An expression that does not parse is kept
      as a leaf that throws when it is reached. */
  function ParseFilter(p: Platform, v: Stored, depth: nat): Option<Filter>
    decreases v, 0
  {
    if depth > MAX_FILTER_DEPTH then None
    else if v.Text? then Some(Test(CompileBody(p, v.text)))
    else if !v.Mapping? || |v.keys| != 1 || |v.values| != 1 then None
    else
      var kind := KindOf(v.keys[0]);
      if kind.None? || !v.values[0].Sequence? then None
      else
        match ParseFilters(p, v.values[0].items, depth + 1)
        case None => None
        case Some(children) => Some(Group(kind.value, children))
  }

  function ParseFilters(p: Platform, vs: seq<Stored>, depth: nat): Option<seq<Filter>>
    decreases vs, 1
  {
    if vs == [] then Some([])
    else
      var first := ParseFilter(p, vs[0], depth);
      if first.None? then None
      else
        match ParseFilters(p, vs[1..], depth)
        case None => None
        case Some(rest) => Some([first.value] + rest)
  }

  // ----- which values are filters

  /** An expression, or one and/or/not key holding a list of filters. */
  predicate Shaped(v: Stored) {
    match v
    case Text(_) => true
    case Mapping(keys, values) =>
      && |keys| == 1 && |values| == 1 && KindOf(keys[0]).Some? && values[0].Sequence?
      && forall i :: 0 <= i < |values[0].items| ==> Shaped(values[0].items[i])
    case _ => false
  }

  /** No filter lies under more than `levels` groups. */
  predicate Within(v: Stored, levels: int) {
    && levels >= 0
    && (v.Mapping? && |v.values| == 1 && v.values[0].Sequence? ==>
          forall i :: 0 <= i < |v.values[0].items| ==> Within(v.values[0].items[i], levels - 1))
  }

  /** The filter that a shaped value stands for. */
  predicate Represents(p: Platform, v: Stored, f: Filter)
    requires Shaped(v)
  {
    if v.Text? then f == Test(CompileBody(p, v.text))
    else
      var items := v.values[0].items;
      && f.Group? && f.kind == KindOf(v.keys[0]).value && |f.children| == |items|
      && forall i :: 0 <= i < |items| ==> Represents(p, items[i], f.children[i])
  }

  /** A stored filter is accepted exactly when it is well shaped and not too deep,
      and then every part of it is kept in place. */
  lemma {:induction false} ParsesWhenShaped(p: Platform, v: Stored, depth: nat)
    ensures ParseFilter(p, v, depth).Some? <==> Shaped(v) && Within(v, MAX_FILTER_DEPTH - depth)
    ensures ParseFilter(p, v, depth).Some? ==> Represents(p, v, ParseFilter(p, v, depth).value)
    decreases v, 0
  {
    if depth <= MAX_FILTER_DEPTH && v.Mapping? && |v.keys| == 1 && |v.values| == 1
       && KindOf(v.keys[0]).Some? && v.values[0].Sequence? {
      ItemsParse(p, v, v.values[0].items, depth + 1);
    }
  }

  lemma {:induction false} ItemsParse(p: Platform, parent: Stored, vs: seq<Stored>, depth: nat)
    requires forall i :: 0 <= i < |vs| ==> vs[i] < parent
    ensures ParseFilters(p, vs, depth).Some? <==>
            forall i :: 0 <= i < |vs| ==> Shaped(vs[i]) && Within(vs[i], MAX_FILTER_DEPTH - depth)
    ensures ParseFilters(p, vs, depth).Some? ==>
              var fs := ParseFilters(p, vs, depth).value;
              |fs| == |vs| && forall i :: 0 <= i < |vs| ==> Represents(p, vs[i], fs[i])
    decreases parent, -1, |vs|
  {
    if vs != [] {
      ParsesWhenShaped(p, vs[0], depth);
      ItemsParse(p, parent, vs[1..], depth);
      assert forall i :: 0 < i < |vs| ==> vs[i] == vs[1..][i - 1];
    }
  }

  // ----- combining the filters of a Base and of its view

  datatype Effective = Raised | Accept(filter: Option<Filter>)

  /** `effectiveFilter`: a lone filter is tested as written; two are combined and
      optimized. Values that are not truthy count as absent. */
  function EffectiveFilter(p: Platform, root: Stored, view: Stored): Effective {
    var given := (if Given(p, root) then [root] else []) + (if Given(p, view) then [view] else []);
    Combine(ParseFilters(p, given, 0))
  }

  function Combine(filters: Option<seq<Filter>>): Effective {
    match filters
    case None => Raised
    case Some(filters) => Accept(if |filters| == 1 then Some(filters[0]) else Optimize(Group(And, filters)))
  }

  /** What one stored filter contributes. */
  datatype Part = Absent | Invalid | Valid(filter: Filter)

  function Read(p: Platform, v: Stored): Part {
    if !Given(p, v) then Absent
    else if ParseFilter(p, v, 0).None? then Invalid
    else Valid(ParseFilter(p, v, 0).value)
  }

  /** The combined filter, when both stored filters can be read. */
  function Conjoined(root: Part, view: Part): Effective {
    if root.Invalid? || view.Invalid? then Raised
    else if root.Absent? && view.Absent? then Accept(None)
    else if root.Absent? then Accept(Some(view.filter))
    else if view.Absent? then Accept(Some(root.filter))
    else Accept(Optimize(Group(And, [root.filter, view.filter])))
  }

  function Consed(first: Option<Filter>, rest: Option<seq<Filter>>): Option<seq<Filter>> {
    if first.None? || rest.None? then None else Some([first.value] + rest.value)
  }

  lemma {:induction false} FirstParses(p: Platform, v: Stored, vs: seq<Stored>)
    ensures ParseFilters(p, [v] + vs, 0) == Consed(ParseFilter(p, v, 0), ParseFilters(p, vs, 0))
  {
    assert ([v] + vs)[0] == v && ([v] + vs)[1..] == vs;
  }

  lemma {:induction false} PairParses(p: Platform, a: Stored, b: Stored)
    ensures ParseFilters(p, [a], 0) == Consed(ParseFilter(p, a, 0), Some([]))
    ensures ParseFilters(p, [a] + [b], 0) == Consed(ParseFilter(p, a, 0), Consed(ParseFilter(p, b, 0), Some([])))
  {
    FirstParses(p, b, []);
    FirstParses(p, a, []);
    FirstParses(p, a, [b]);
    assert [a] + [] == [a] && [b] + [] == [b];
  }

  lemma {:induction false} CombinesNone(p: Platform)
    ensures Combine(ParseFilters(p, [], 0)) == Accept(None)
  {
    assert Collect(And, []) == [];
  }

  lemma {:induction false} CombinesOne(p: Platform, v: Stored)
    ensures var parsed := ParseFilter(p, v, 0);
            Combine(ParseFilters(p, [v], 0)) == if parsed.None? then Raised else Accept(Some(parsed.value))
  {
    PairParses(p, v, v);
    ConsedOne(ParseFilter(p, v, 0));
  }

  lemma {:induction false} ConsedOne(first: Option<Filter>)
    ensures Consed(first, Some([])) == if first.None? then None else Some([first.value])
  {
    if first.Some? { assert [first.value] + [] == [first.value]; }
  }

  lemma {:induction false} CombinesTwo(p: Platform, a: Stored, b: Stored)
    ensures var f, g := ParseFilter(p, a, 0), ParseFilter(p, b, 0);
            Combine(ParseFilters(p, [a] + [b], 0))
            == if f.None? || g.None? then Raised else Accept(Optimize(Group(And, [f.value, g.value])))
  {
    PairParses(p, a, b);
    ConsedOne(ParseFilter(p, b, 0));
    ConsedTwo(ParseFilter(p, a, 0), ParseFilter(p, b, 0));
  }

  lemma {:induction false} ConsedTwo(first: Option<Filter>, second: Option<Filter>)
    ensures Consed(first, Consed(second, Some([])))
         == if first.None? || second.None? then None else Some([first.value, second.value])
  {
    ConsedOne(second);
    if first.Some? && second.Some? { assert [first.value] + [second.value] == [first.value, second.value]; }
  }

  lemma {:induction false} EffectiveIs(p: Platform, root: Stored, view: Stored)
    ensures EffectiveFilter(p, root, view)
         == if Given(p, root) && Given(p, view) then Combine(ParseFilters(p, [root] + [view], 0))
            else if Given(p, root) then Combine(ParseFilters(p, [root], 0))
            else if Given(p, view) then Combine(ParseFilters(p, [view], 0))
            else Combine(ParseFilters(p, [], 0))
  {
    assert [root] + [] == [root] && [] + [view] == [view];
  }

  lemma {:induction false} EffectiveConjoins(p: Platform, root: Stored, view: Stored)
    ensures EffectiveFilter(p, root, view) == Conjoined(Read(p, root), Read(p, view))
  {
    EffectiveIs(p, root, view);
    if Given(p, root) && Given(p, view) { CombinesTwo(p, root, view); }
    else if Given(p, root) { CombinesOne(p, root); }
    else if Given(p, view) { CombinesOne(p, view); }
    else { CombinesNone(p); }
  }

  /** Testing one row against both filters in turn, as they were written. */
  function InTurn<S>(root: Part, view: Part, ask: Asker<S>, s: S): (Verdict, S)
    requires !root.Invalid? && !view.Invalid?
  {
    var (v, s') := if root.Valid? then Run(root.filter, ask, s) else (Holds, s);
    if v != Holds || view.Absent? then (v, s') else Run(view.filter, ask, s')
  }

  /** When the optimizer keeps the combination; a lone filter is never optimized. */
  predicate Combines(root: Part, view: Part) {
    root.Valid? && view.Valid? ==> Faithful(Group(And, [root.filter, view.filter]), true)
  }

  lemma {:induction false} RunPair<S>(f: Filter, g: Filter, ask: Asker<S>, s: S)
    ensures Run(Group(And, [f, g]), ask, s) == InTurn(Valid(f), Valid(g), ask, s)
  {
    assert [f, g][1..] == [g] && [g][1..] == [];
    var (_, s') := Run(f, ask, s);
    var (w, s'') := Run(g, ask, s');
    assert Every([g], ask, s') == if w.Holds? then Every([], ask, s'') else (w, s'');
  }

  /** The query refuses exactly the filters it cannot read. Otherwise both are in
      force, in order, short-circuiting and throwing as one after the other. */
  lemma {:induction false} EffectiveFilterTests<S>(p: Platform, root: Stored, view: Stored, ask: Asker<S>, s: S)
    ensures EffectiveFilter(p, root, view).Raised? <==> Read(p, root).Invalid? || Read(p, view).Invalid?
    ensures EffectiveFilter(p, root, view).Accept? && Combines(Read(p, root), Read(p, view)) ==>
              RunOptional(EffectiveFilter(p, root, view).filter, ask, s)
              == InTurn(Read(p, root), Read(p, view), ask, s)
  {
    EffectiveConjoins(p, root, view);
    var a, b := Read(p, root), Read(p, view);
    if a.Valid? && b.Valid? {
      RunPair(a.filter, b.filter, ask, s);
      if Combines(a, b) { FaithfulRuns(Group(And, [a.filter, b.filter]), ask, s); }
    }
  }

  /** Where the optimizer does not keep the combination, some evaluator can tell. */
  lemma {:induction false} UncombinedDiffers(p: Platform, root: Stored, view: Stored) returns (start: Script)
    requires !Read(p, root).Invalid? && !Read(p, view).Invalid?
    requires !Combines(Read(p, root), Read(p, view))
    ensures EffectiveFilter(p, root, view).Accept?
    ensures RunOptional(EffectiveFilter(p, root, view).filter, Follow, start)
            != InTurn(Read(p, root), Read(p, view), Follow, start)
  {
    EffectiveConjoins(p, root, view);
    var f, g := Read(p, root).filter, Read(p, view).filter;
    var both := Group(And, [f, g]);
    UnfaithfulDiffers(both);
    var answers :| RunOptional(Optimize(both), Follow, Script(answers, [])) != Run(both, Follow, Script(answers, []));
    start := Script(answers, []);
    RunPair(f, g, Follow, start);
  }
}
