/** The optimizer keeps a filter's meaning exactly when the filter is faithful. */
module FilterExact {
  import opened Platforms
  import opened Formulas
  import opened Filters
  import opened FilterMeaning

  // ----- the condition is necessary

  /** If a filter and its optimized form decide alike, towards outcomes no taller
      for the filter, then the filter is faithful and the outcomes are the same. */
  lemma {:induction false} Needed(f: Filter, yes: Decision, no: Decision, yes': Decision, no': Decision)
    requires Optimize(f).Some? && Decide(f, yes, no) == Decide(Optimize(f).value, yes', no')
    requires Taller(yes, no) <= Taller(yes', no') && yes' != no'
    ensures Faithful(f, true) && Faithful(f, false) && yes == yes' && no == no'
    decreases f, 0
  {
    if f.Group? {
      var kept := Collect(f.kind, f.children);
      LeavesCollected(f.kind, f.children);
      CollectedIsNormal(f.kind, f.children);
      HeightsExactly(Group(f.kind, kept), kept, yes', no');
      CollapsesExactly(f.children);
      if f.kind == Not && Collapses(f.children) {
        CollapsedApart(f, yes, no, yes', no');
      } else {
        KeptDecides(f, yes', no');
        NeededGroup(f, yes, no, yes', no');
      }
    }
  }

  lemma {:induction false} CollapsedApart(f: Filter, yes: Decision, no: Decision, yes': Decision, no': Decision)
    requires f.Group? && f.kind == Not && KeepsDenied(f.children) && Optimize(f).Some?
    requires Taller(yes, no) <= Taller(yes', no') && yes' != no'
    ensures Decide(f, yes, no) != Decide(Optimize(f).value, yes', no')
    decreases f, -1, |f.children| + 2
  {
    var kept := Collect(f.kind, f.children);
    CollectedIsNormal(f.kind, f.children);
    CollapsedConjunction(kept[0].children, yes', no');
    NoCollapse(f, Not, f.children, no, yes, kept[0].children, yes', no');
  }

  lemma {:induction false} NeededGroup(f: Filter, yes: Decision, no: Decision, yes': Decision, no': Decision)
    requires f.Group? && Collect(f.kind, f.children) != []
    requires DecideKept(f.kind, f.children, yes, no) == DecideKept(f.kind, Collect(f.kind, f.children), yes', no')
    requires Taller(yes, no) <= Taller(yes', no') && yes' != no'
    ensures forall i :: 0 <= i < |f.children| ==> Faithful(f.children[i], f.kind == And)
    ensures yes == yes' && no == no'
    decreases f, -1, |f.children| + 1
  {
    match f.kind
    case And => NeededEvery(f, f.children, yes, no, yes', no');
    case Or => NeededAny(f, Or, f.children, yes, no, yes', no');
    case Not => NeededAny(f, Not, f.children, no, yes, no', yes');
  }

  /** Short of a collapse, the optimized group decides as its collected children. */
  lemma {:induction false} KeptDecides(f: Filter, yes: Decision, no: Decision)
    requires f.Group? && Optimize(f).Some? && !(f.kind == Not && Collapses(f.children))
    ensures Decide(Optimize(f).value, yes, no) == DecideKept(f.kind, Collect(f.kind, f.children), yes, no)
  {
    var kept := Collect(f.kind, f.children);
    CollectedIsNormal(f.kind, f.children);
    CollapsesExactly(f.children);
    if |kept| == 1 {
      KeptSingleton(f.kind, kept, yes, no);
      if f.kind == Not && IsGroup(kept[0], Not) { CollapsedSingleton(kept, kept[0].children, yes, no); }
    }
  }

  /** What is left of a group after its first child, original and optimized. */
  lemma {:induction false} RestHeights(kind: Kind, fs: seq<Filter>, yes: Decision, no: Decision, yes': Decision, no': Decision)
    requires Taller(yes, no) <= Taller(yes', no')
    ensures var kept := Collect(kind, fs);
            && Height(DecideEvery(fs, yes, no)) <= Taller(DecideEvery(kept, yes', no'), no')
            && Height(DecideAny(fs, yes, no)) <= Taller(yes', DecideAny(kept, yes', no'))
            && (kept != [] ==> Height(DecideEvery(kept, yes', no')) > Taller(yes', no') && Height(DecideAny(kept, yes', no')) > Taller(yes', no'))
  {
    var kept := Collect(kind, fs);
    HeightsAtMost(Group(kind, fs), fs, yes, no);
    CollectedIsNormal(kind, fs);
    HeightsExactly(Group(kind, kept), kept, yes', no');
    LeavesCollected(kind, fs);
  }

  lemma {:induction false} NeededEvery(parent: Filter, fs: seq<Filter>, yes: Decision, no: Decision, yes': Decision, no': Decision)
    requires forall i :: 0 <= i < |fs| ==> fs[i] < parent
    requires DecideEvery(fs, yes, no) == DecideEvery(Collect(And, fs), yes', no')
    requires Taller(yes, no) <= Taller(yes', no') && yes' != no'
    requires Collect(And, fs) != [] || no == no'
    ensures forall i :: 0 <= i < |fs| ==> Faithful(fs[i], true)
    ensures yes == yes' && (Collect(And, fs) != [] ==> no == no')
    decreases parent, -1, |fs|
  {
    if fs != [] {
      var rest, kept := fs[1..], Collect(And, fs[1..]);
      LeavesKept(fs[0]);
      RestHeights(And, rest, yes, no, yes', no');
      var goOn, goOn' := DecideEvery(rest, yes, no), DecideEvery(kept, yes', no');
      if Optimize(fs[0]).None? {
        DroppedIsConstant(fs[0], goOn, no);
        assert Constant(fs[0]);
      } else {
        SpliceEvery(Optimize(fs[0]).value, kept, yes', no');
        Needed(fs[0], goOn, no, goOn', no');
      }
      NeededEvery(parent, rest, yes, no, yes', no');
    }
  }

  lemma {:induction false} NeededAny(parent: Filter, kind: Kind, fs: seq<Filter>, yes: Decision, no: Decision, yes': Decision, no': Decision)
    requires kind != And && forall i :: 0 <= i < |fs| ==> fs[i] < parent
    requires DecideAny(fs, yes, no) == DecideAny(Collect(kind, fs), yes', no')
    requires Taller(yes, no) <= Taller(yes', no') && yes' != no'
    requires Collect(kind, fs) != [] || yes == yes'
    ensures forall i :: 0 <= i < |fs| ==> Faithful(fs[i], false)
    ensures no == no' && (Collect(kind, fs) != [] ==> yes == yes')
    decreases parent, -1, |fs|
  {
    if fs != [] {
      var rest, kept := fs[1..], Collect(kind, fs[1..]);
      LeavesKept(fs[0]);
      RestHeights(kind, rest, yes, no, yes', no');
      var goOn, goOn' := DecideAny(rest, yes, no), DecideAny(kept, yes', no');
      if Optimize(fs[0]).None? {
        DroppedIsConstant(fs[0], yes, goOn);
        assert !Constant(fs[0]);
      } else {
        SpliceAny(kind, Optimize(fs[0]).value, kept, yes', no');
        Needed(fs[0], yes, goOn, yes', goOn');
      }
      NeededAny(parent, kind, rest, yes, no, yes', no');
    }
  }

  // ----- a collapsed negation of several filters decides differently

  function DecideGroup(kind: Kind, fs: seq<Filter>, yes: Decision, no: Decision): Decision {
    if kind == And then DecideEvery(fs, yes, no) else DecideAny(fs, yes, no)
  }

  lemma {:induction false} SeveralTaller(ns: seq<Filter>, yes: Decision, no: Decision)
    requires |ns| > 1 && forall i :: 0 <= i < |ns| ==> Normal(ns[i])
    ensures Height(DecideEvery(ns, yes, no)) > Taller(yes, no)
    ensures Height(DecideEvery(ns[1..], yes, no)) > Taller(yes, no)
  {
    HeightsExactly(Group(And, ns), ns, yes, no);
    HeightsExactly(Group(And, ns[1..]), ns[1..], yes, no);
  }

  lemma {:induction false} NoCollapse(parent: Filter, kind: Kind, fs: seq<Filter>, yes: Decision, no: Decision, ns: seq<Filter>, yes': Decision, no': Decision)
    requires forall i :: 0 <= i < |fs| ==> fs[i] < parent
    requires Collect(kind, fs) == [Group(Not, ns)] && Normal(Group(Not, ns)) && |ns| > 1
    requires Taller(yes, no) <= Taller(yes', no') && yes' != no'
    ensures DecideGroup(kind, fs, yes, no) != DecideEvery(ns, yes', no')
    decreases parent, -1, |fs|
  {
    var rest := fs[1..];
    var goOn := DecideGroup(kind, rest, yes, no);
    LeavesKept(fs[0]);
    SeveralTaller(ns, yes', no');
    match Optimize(fs[0])
    case None =>
      DroppedIsConstant(fs[0], if kind == And then goOn else yes, if kind == And then no else goOn);
      NoCollapse(parent, kind, rest, yes, no, ns, yes', no');
    case Some(o) =>
      OptimizedIsNormal(fs[0]);
      SplicedAlone(kind, o, Collect(kind, rest), Group(Not, ns));
      LeavesCollected(kind, rest);
      DroppedEvery(Group(kind, rest), rest, yes, no);
      DroppedAny(Group(kind, rest), rest, yes, no);
      if kind == And { NoCollapseOf(fs[0], goOn, no, ns, yes', no'); } else { NoCollapseOf(fs[0], yes, goOn, ns, yes', no'); }
  }

  lemma {:induction false} SplicedAlone(kind: Kind, o: Filter, rest: seq<Filter>, only: Filter)
    requires Normal(o) && Splice(kind, o) + rest == [only] && IsGroup(only, Not)
    ensures o == only && rest == []
  {
    assert |Splice(kind, o)| + |rest| == 1;
    assert (Splice(kind, o) + rest)[0] == Splice(kind, o)[0];
  }

  lemma {:induction false} NoCollapseOf(f: Filter, yes: Decision, no: Decision, ns: seq<Filter>, yes': Decision, no': Decision)
    requires Optimize(f) == Some(Group(Not, ns)) && Normal(Group(Not, ns)) && |ns| > 1
    requires Taller(yes, no) <= Taller(yes', no') && yes' != no'
    ensures Decide(f, yes, no) != DecideEvery(ns, yes', no')
    decreases f, 0
  {
    var kept := Collect(f.kind, f.children);
    CollectedIsNormal(f.kind, f.children);
    if f.kind != Not {
      assert kept == [kept[0]];
      NoCollapse(f, f.kind, f.children, yes, no, ns, yes', no');
    } else if |kept| == 1 && IsGroup(kept[0], Not) {
      CollapsedConjunction(kept[0].children, yes', no');
      assert false;
    } else {
      NegationDiffers(f, f.children, no, yes, ns, yes', no');
    }
  }

  lemma {:induction false} NegationDiffers(parent: Filter, fs: seq<Filter>, yes: Decision, no: Decision, ns: seq<Filter>, yes': Decision, no': Decision)
    requires forall i :: 0 <= i < |fs| ==> fs[i] < parent
    requires Collect(Not, fs) == ns && |ns| > 1 && forall i :: 0 <= i < |ns| ==> Normal(ns[i])
    requires Taller(yes, no) <= Taller(yes', no') && yes' != no'
    ensures DecideAny(fs, yes, no) != DecideEvery(ns, yes', no')
    decreases parent, -1, |fs|
  {
    var rest := fs[1..];
    var goOn, goOn' := DecideAny(rest, yes, no), DecideEvery(ns[1..], yes', no');
    LeavesKept(fs[0]);
    SeveralTaller(ns, yes', no');
    match Optimize(fs[0])
    case None =>
      DroppedIsConstant(fs[0], yes, goOn);
      NegationDiffers(parent, rest, yes, no, ns, yes', no');
    case Some(o) =>
      assert ns[0] == o && ns[1..] == Collect(Not, rest);
      HeightsAtMost(Group(Not, rest), rest, yes, no);
      LeavesCollected(Not, rest);
      HeightsExactly(Group(Not, ns[1..]), ns[1..], yes', no');
      if DecideAny(fs, yes, no) == DecideEvery(ns, yes', no') {
        Needed(fs[0], yes, goOn, goOn', no');
      }
  }

  // ----- main results

  /** The optimized filter decides as the original exactly when the original is faithful. */
  lemma {:induction false} OptimizeExact(f: Filter)
    ensures MeaningOf(Optimize(f)) == Meaning(f) <==> Faithful(f, true)
  {
    LeavesKept(f);
    if Faithful(f, true) { FaithfulKeeps(f, true, Done(true), Done(false)); }
    else if Optimize(f).None? { DroppedIsConstant(f, Done(true), Done(false)); }
    else if MeaningOf(Optimize(f)) == Meaning(f) { Needed(f, Done(true), Done(false), Done(true), Done(false)); }
  }

  /** `!filter || testFilter(filter)`. */
  function RunOptional<S>(f: Option<Filter>, ask: Asker<S>, s: S): (Verdict, S) {
    if f.None? then (Holds, s) else Run(f.value, ask, s)
  }

  /** A faithful filter is tested alike, leaf for leaf, with any evaluator. */
  lemma {:induction false} FaithfulRuns<S>(f: Filter, ask: Asker<S>, s: S)
    requires Faithful(f, true)
    ensures RunOptional(Optimize(f), ask, s) == Run(f, ask, s)
  {
    OptimizeExact(f);
    RunIsPlay(f, ask, s);
    if Optimize(f).Some? { RunIsPlay(Optimize(f).value, ask, s); }
  }

  /** An unfaithful filter is tested differently by some evaluator. */
  lemma {:induction false} UnfaithfulDiffers(f: Filter)
    requires !Faithful(f, true)
    ensures exists answers ::
              RunOptional(Optimize(f), Follow, Script(answers, [])) != Run(f, Follow, Script(answers, []))
  {
    OptimizeExact(f);
    var answers := Distinguish(MeaningOf(Optimize(f)), Meaning(f), []);
    RunIsPlay(f, Follow, Script(answers, []));
    if Optimize(f).Some? { RunIsPlay(Optimize(f).value, Follow, Script(answers, [])); }
  }

  lemma {:induction false} DoubledCollapses(a: Body, b: Body)
    ensures var doubled := Group(Not, [Group(Not, [Test(a), Test(b)])]);
            Optimize(doubled) == Some(Group(And, [Test(a), Test(b)])) && !Faithful(doubled, true)
  {
    var inner := Group(Not, [Test(a), Test(b)]);
    CollectTests(a, b);
    assert Collect(Not, inner.children) == inner.children && Optimize(inner) == Some(inner);
    assert [inner][1..] == [] && Collect(Not, [inner][1..]) == [];
    assert Collect(Not, [inner]) == [inner] + [];
    CollapsesExactly([inner]);
    assert Collect(And, [Test(a), Test(b)]) == [Test(a), Test(b)];
    assert Leaves(inner) > 0 && LeavesAll([inner]) > 0;
  }

  lemma {:induction false} EmptyOrDrops(a: Body)
    ensures var empty := Group(And, [Group(Or, []), Test(a)]);
            Optimize(empty) == Some(Test(a)) && !Faithful(empty, true)
  {
    var children := [Group(Or, []), Test(a)];
    assert children[1..] == [Test(a)] && [Test(a)][1..] == [];
    assert Collect(And, [Test(a)]) == [Test(a)] && Collect(And, children) == [Test(a)];
    assert Leaves(Test(a)) == 1 && LeavesAll([Test(a)]) == 1 && LeavesAll(children) == 1;
    assert !Faithful(children[0], true);
  }

  /** The condition fails on `not (not (a or b))` and on an empty `or` in an `and`. */
  lemma {:induction false} UnfaithfulExamples(a: Body, b: Body)
    ensures var doubled := Group(Not, [Group(Not, [Test(a), Test(b)])]);
            Optimize(doubled) == Some(Group(And, [Test(a), Test(b)])) && !Faithful(doubled, true)
    ensures var empty := Group(And, [Group(Or, []), Test(a)]);
            Optimize(empty) == Some(Test(a)) && !Faithful(empty, true)
  {
    DoubledCollapses(a, b);
    EmptyOrDrops(a);
  }

  lemma {:induction false} CollectTests(a: Body, b: Body)
    ensures forall kind :: Collect(kind, [Test(a), Test(b)]) == [Test(a), Test(b)]
    ensures LeavesAll([Test(a), Test(b)]) == 2
  {
    assert [Test(a), Test(b)][1..] == [Test(b)] && [Test(b)][1..] == [];
    assert LeavesAll([Test(b)]) == 1;
    forall kind ensures Collect(kind, [Test(b)]) == [Test(b)] {}
  }
}
