/** When the optimizer keeps the meaning of a filter.

    A filter is read as a decision tree: which leaf is evaluated next, given the
    verdicts so far. Two filters behave alike for every way of evaluating leaves,
    stateful ones included, when their decision trees are the same. */
module FilterMeaning {
  import opened Platforms
  import opened Formulas
  import opened Filters

  datatype Decision = Done(verdict: bool) | Query(leaf: Body, yes: Decision, no: Decision)

  /** The tree of `f`, going on to `yes` when it holds and to `no` when it fails. */
  function Decide(f: Filter, yes: Decision, no: Decision): Decision
    decreases f, 0
  {
    match f
    case Test(leaf) => Query(leaf, yes, no)
    case Group(And, children) => DecideEvery(children, yes, no)
    case Group(Or, children) => DecideAny(children, yes, no)
    case Group(Not, children) => DecideAny(children, no, yes)
  }

  function DecideEvery(fs: seq<Filter>, yes: Decision, no: Decision): Decision
    decreases fs, 1
  {
    if fs == [] then yes else Decide(fs[0], DecideEvery(fs[1..], yes, no), no)
  }

  function DecideAny(fs: seq<Filter>, yes: Decision, no: Decision): Decision
    decreases fs, 1
  {
    if fs == [] then no else Decide(fs[0], yes, DecideAny(fs[1..], yes, no))
  }

  function Meaning(f: Filter): Decision { Decide(f, Done(true), Done(false)) }

  /** An absent filter lets every row pass. */
  function MeaningOf(f: Option<Filter>): Decision {
    if f.None? then Done(true) else Meaning(f.value)
  }

  // ----- decision trees and runs

  function Play<S>(d: Decision, ask: Asker<S>, s: S): (Verdict, S) {
    match d
    case Done(verdict) => (if verdict then Holds else Fails, s)
    case Query(leaf, yes, no) =>
      var (v, s') := ask(leaf, s);
      if v.Holds? then Play(yes, ask, s') else if v.Fails? then Play(no, ask, s') else (Throws, s')
  }

  lemma {:induction false} PlayDecide<S>(f: Filter, yes: Decision, no: Decision, ask: Asker<S>, s: S)
    ensures var (v, s') := Run(f, ask, s);
            Play(Decide(f, yes, no), ask, s)
            == if v.Holds? then Play(yes, ask, s') else if v.Fails? then Play(no, ask, s') else (Throws, s')
    decreases f, 0
  {
    match f
    case Test(_) =>
    case Group(And, children) => PlayEvery(f, children, yes, no, ask, s);
    case Group(Or, children) => PlayAny(f, children, yes, no, ask, s);
    case Group(Not, children) => PlayAny(f, children, no, yes, ask, s);
  }

  lemma {:induction false} PlayEvery<S>(parent: Filter, fs: seq<Filter>, yes: Decision, no: Decision, ask: Asker<S>, s: S)
    requires forall i :: 0 <= i < |fs| ==> fs[i] < parent
    ensures var (v, s') := Every(fs, ask, s);
            Play(DecideEvery(fs, yes, no), ask, s)
            == if v.Holds? then Play(yes, ask, s') else if v.Fails? then Play(no, ask, s') else (Throws, s')
    decreases parent, -1, |fs|
  {
    if fs != [] {
      PlayDecide(fs[0], DecideEvery(fs[1..], yes, no), no, ask, s);
      PlayEvery(parent, fs[1..], yes, no, ask, Run(fs[0], ask, s).1);
    }
  }

  lemma {:induction false} PlayAny<S>(parent: Filter, fs: seq<Filter>, yes: Decision, no: Decision, ask: Asker<S>, s: S)
    requires forall i :: 0 <= i < |fs| ==> fs[i] < parent
    ensures var (v, s') := Any(fs, ask, s);
            Play(DecideAny(fs, yes, no), ask, s)
            == if v.Holds? then Play(yes, ask, s') else if v.Fails? then Play(no, ask, s') else (Throws, s')
    decreases parent, -1, |fs|
  {
    if fs != [] {
      PlayDecide(fs[0], yes, DecideAny(fs[1..], yes, no), ask, s);
      PlayAny(parent, fs[1..], yes, no, ask, Run(fs[0], ask, s).1);
    }
  }

  /** Running a filter is playing its meaning. */
  lemma {:induction false} RunIsPlay<S>(f: Filter, ask: Asker<S>, s: S)
    ensures Run(f, ask, s) == Play(Meaning(f), ask, s)
  {
    PlayDecide(f, Done(true), Done(false), ask, s);
  }

  /** An evaluator that follows a script and records what it was asked. */
  datatype Script = Script(answers: seq<Verdict>, asked: seq<Body>)

  function Follow(leaf: Body, s: Script): (Verdict, Script) {
    if s.answers == [] then (Throws, s.(asked := s.asked + [leaf]))
    else (s.answers[0], Script(s.answers[1..], s.asked + [leaf]))
  }

  /** Different decision trees are told apart by some script. */
  lemma {:induction false} Distinguish(d: Decision, e: Decision, asked: seq<Body>) returns (answers: seq<Verdict>)
    requires d != e
    ensures Play(d, Follow, Script(answers, asked)) != Play(e, Follow, Script(answers, asked))
  {
    if d.Done? || e.Done? {
      answers := [];
    } else if d.leaf != e.leaf {
      answers := [];
      assert (asked + [d.leaf])[|asked|] != (asked + [e.leaf])[|asked|];
    } else if d.yes != e.yes {
      var more := Distinguish(d.yes, e.yes, asked + [d.leaf]);
      answers := [Holds] + more;
      assert Follow(d.leaf, Script(answers, asked)) == (Holds, Script(more, asked + [d.leaf]));
    } else {
      var more := Distinguish(d.no, e.no, asked + [d.leaf]);
      answers := [Fails] + more;
      assert Follow(d.leaf, Script(answers, asked)) == (Fails, Script(more, asked + [d.leaf]));
    }
  }

  // ----- sizes of meanings

  function Leaves(f: Filter): nat {
    match f
    case Test(_) => 1
    case Group(_, children) => LeavesAll(children)
  }

  function LeavesAll(fs: seq<Filter>): nat {
    if fs == [] then 0 else Leaves(fs[0]) + LeavesAll(fs[1..])
  }

  function Height(d: Decision): nat {
    match d
    case Done(_) => 0
    case Query(_, yes, no) => 1 + Max(Height(yes), Height(no))
  }

  function Taller(d: Decision, e: Decision): nat { Max(Height(d), Height(e)) }

  lemma {:induction false} HeightAtMost(f: Filter, yes: Decision, no: Decision)
    ensures Height(Decide(f, yes, no)) <= Leaves(f) + Taller(yes, no)
    decreases f, 0
  {
    match f
    case Test(_) =>
    case Group(And, children) => HeightsAtMost(f, children, yes, no);
    case Group(Or, children) => HeightsAtMost(f, children, yes, no);
    case Group(Not, children) => HeightsAtMost(f, children, no, yes);
  }

  lemma {:induction false} HeightsAtMost(parent: Filter, fs: seq<Filter>, yes: Decision, no: Decision)
    requires forall i :: 0 <= i < |fs| ==> fs[i] < parent
    ensures Height(DecideEvery(fs, yes, no)) <= LeavesAll(fs) + Taller(yes, no)
    ensures Height(DecideAny(fs, yes, no)) <= LeavesAll(fs) + Taller(yes, no)
    decreases parent, -1, |fs|
  {
    if fs != [] {
      HeightsAtMost(parent, fs[1..], yes, no);
      HeightAtMost(fs[0], DecideEvery(fs[1..], yes, no), no);
      HeightAtMost(fs[0], yes, DecideAny(fs[1..], yes, no));
    }
  }

  /** In a normal filter some path asks every leaf, whatever the verdict. */
  lemma {:induction false} HeightExactly(f: Filter, yes: Decision, no: Decision)
    requires Normal(f)
    ensures Height(Decide(f, yes, no)) == Leaves(f) + Taller(yes, no) && Leaves(f) > 0
    decreases f, 0
  {
    match f
    case Test(_) =>
    case Group(And, children) => HeightsExactly(f, children, yes, no);
    case Group(Or, children) => HeightsExactly(f, children, yes, no);
    case Group(Not, children) => HeightsExactly(f, children, no, yes);
  }

  lemma {:induction false} HeightsExactly(parent: Filter, fs: seq<Filter>, yes: Decision, no: Decision)
    requires forall i :: 0 <= i < |fs| ==> fs[i] < parent && Normal(fs[i])
    ensures fs != [] ==> LeavesAll(fs) > 0
    ensures fs != [] ==> Height(DecideEvery(fs, yes, no)) == LeavesAll(fs) + Taller(yes, no)
    ensures fs != [] ==> Height(DecideAny(fs, yes, no)) == LeavesAll(fs) + Taller(yes, no)
    decreases parent, -1, |fs|
  {
    if fs != [] {
      HeightsExactly(parent, fs[1..], yes, no);
      HeightExactly(fs[0], DecideEvery(fs[1..], yes, no), no);
      HeightExactly(fs[0], yes, DecideAny(fs[1..], yes, no));
    }
  }

  lemma {:induction false} LeavesAppend(a: seq<Filter>, b: seq<Filter>)
    ensures LeavesAll(a + b) == LeavesAll(a) + LeavesAll(b)
  {
    if a == [] { assert a + b == b; }
    else {
      assert (a + b)[1..] == a[1..] + b;
      LeavesAppend(a[1..], b);
    }
  }

  /** No leaf is lost or added. */
  lemma {:induction false} LeavesKept(f: Filter)
    ensures Leaves(f) == if Optimize(f).None? then 0 else Leaves(Optimize(f).value)
    decreases Size(f), 0
  {
    if f.Group? {
      LeavesCollected(f.kind, f.children);
      var kept := Collect(f.kind, f.children);
      if |kept| == 1 { assert kept[1..] == []; }
      if f.kind == Not && |kept| == 1 && IsGroup(kept[0], Not) { LeavesKept(Group(And, kept[0].children)); }
    }
  }

  lemma {:induction false} LeavesCollected(kind: Kind, fs: seq<Filter>)
    ensures LeavesAll(Collect(kind, fs)) == LeavesAll(fs)
    decreases SizeAll(fs), 1
  {
    if fs != [] {
      LeavesKept(fs[0]);
      LeavesCollected(kind, fs[1..]);
      if Optimize(fs[0]).Some? {
        var first := Optimize(fs[0]).value;
        LeavesAppend(Splice(kind, first), Collect(kind, fs[1..]));
        assert Splice(kind, first) == [first] ==> LeavesAll(Splice(kind, first)) == Leaves(first) by {
          assert [first][1..] == [];
        }
      }
    }
  }

  // ----- dropped filters are constant

  /** The verdict of a filter without leaves. */
  predicate Constant(f: Filter) {
    match f
    case Test(_) => false
    case Group(And, children) => forall i :: 0 <= i < |children| ==> Constant(children[i])
    case Group(Or, children) => exists i :: 0 <= i < |children| && Constant(children[i])
    case Group(Not, children) => !exists i :: 0 <= i < |children| && Constant(children[i])
  }

  lemma {:induction false} DroppedIsConstant(f: Filter, yes: Decision, no: Decision)
    requires Leaves(f) == 0
    ensures Decide(f, yes, no) == if Constant(f) then yes else no
    decreases f, 0
  {
    match f
    case Group(And, children) => DroppedEvery(f, children, yes, no);
    case Group(Or, children) => DroppedAny(f, children, yes, no);
    case Group(Not, children) => DroppedAny(f, children, no, yes);
  }

  lemma {:induction false} DroppedEvery(parent: Filter, fs: seq<Filter>, yes: Decision, no: Decision)
    requires LeavesAll(fs) == 0 && forall i :: 0 <= i < |fs| ==> fs[i] < parent
    ensures DecideEvery(fs, yes, no) == if forall i :: 0 <= i < |fs| ==> Constant(fs[i]) then yes else no
    decreases parent, -1, |fs|
  {
    if fs != [] {
      DroppedIsConstant(fs[0], DecideEvery(fs[1..], yes, no), no);
      DroppedEvery(parent, fs[1..], yes, no);
      assert Constant(fs[0]) ==> ((forall i :: 0 <= i < |fs| ==> Constant(fs[i])) <==> forall i :: 0 <= i < |fs[1..]| ==> Constant(fs[1..][i]));
    }
  }

  lemma {:induction false} DroppedAny(parent: Filter, fs: seq<Filter>, yes: Decision, no: Decision)
    requires LeavesAll(fs) == 0 && forall i :: 0 <= i < |fs| ==> fs[i] < parent
    ensures DecideAny(fs, yes, no) == if exists i :: 0 <= i < |fs| && Constant(fs[i]) then yes else no
    decreases parent, -1, |fs|
  {
    if fs != [] {
      DroppedIsConstant(fs[0], yes, DecideAny(fs[1..], yes, no));
      DroppedAny(parent, fs[1..], yes, no);
      assert !Constant(fs[0]) ==> ((exists i :: 0 <= i < |fs| && Constant(fs[i])) <==> exists i :: 0 <= i < |fs[1..]| && Constant(fs[1..][i]));
    }
  }

  // ----- the condition

  /** Nothing is dropped whose verdict matters, and only a negated negation of
      one filter is collapsed. `neutral` is the verdict that dropping `f` stands
      for where it is. */
  predicate Faithful(f: Filter, neutral: bool)
    decreases f
  {
    if Leaves(f) == 0 then Constant(f) == neutral
    else
      match f
      case Test(_) => true
      case Group(kind, children) =>
        && (forall i :: 0 <= i < |children| ==> Faithful(children[i], kind == And))
        && (kind == Not ==> !Collapses(children))
  }

  /** The filters that hold a leaf. */
  function Bearing(fs: seq<Filter>): (some: seq<Filter>)
    ensures forall f :: f in some ==> f in fs && Size(f) <= SizeAll(fs)
  {
    if fs == [] then [] else (if Leaves(fs[0]) > 0 then [fs[0]] else []) + Bearing(fs[1..])
  }

  /** A negation of several filters that hold a leaf, or a group where such a negation
      is the only child that does. */
  predicate DeniesSeveral(f: Filter)
    decreases Size(f)
  {
    f.Group? &&
    var some := Bearing(f.children);
    if f.kind == Not then |some| > 1 else |some| == 1 && DeniesSeveral(some[0])
  }

  /** The children of a negation that denies the negation of several filters alone:
      the branch that turns `not (not (a or b))` into `a and b`. */
  predicate Collapses(children: seq<Filter>) {
    |Bearing(children)| == 1 && DeniesSeveral(Bearing(children)[0])
  }

  lemma {:induction false} EveryAppend(a: seq<Filter>, b: seq<Filter>, yes: Decision, no: Decision)
    ensures DecideEvery(a + b, yes, no) == DecideEvery(a, DecideEvery(b, yes, no), no)
  {
    if a == [] { assert a + b == b; }
    else {
      assert (a + b)[1..] == a[1..] + b;
      EveryAppend(a[1..], b, yes, no);
    }
  }

  lemma {:induction false} AnyAppend(a: seq<Filter>, b: seq<Filter>, yes: Decision, no: Decision)
    ensures DecideAny(a + b, yes, no) == DecideAny(a, yes, DecideAny(b, yes, no))
  {
    if a == [] { assert a + b == b; }
    else {
      assert (a + b)[1..] == a[1..] + b;
      AnyAppend(a[1..], b, yes, no);
    }
  }

  lemma {:induction false} SpliceEvery(f: Filter, rest: seq<Filter>, yes: Decision, no: Decision)
    ensures DecideEvery(Splice(And, f) + rest, yes, no) == Decide(f, DecideEvery(rest, yes, no), no)
  {
    EveryAppend(Splice(And, f), rest, yes, no);
    assert [f][1..] == [];
  }

  lemma {:induction false} SpliceAny(kind: Kind, f: Filter, rest: seq<Filter>, yes: Decision, no: Decision)
    requires kind != And
    ensures DecideAny(Splice(kind, f) + rest, yes, no) == Decide(f, yes, DecideAny(rest, yes, no))
  {
    AnyAppend(Splice(kind, f), rest, yes, no);
    assert [f][1..] == [];
  }

  /** Decisions of the group that `Optimize` builds from the collected children. */
  function DecideKept(kind: Kind, kept: seq<Filter>, yes: Decision, no: Decision): Decision {
    match kind
    case And => DecideEvery(kept, yes, no)
    case Or => DecideAny(kept, yes, no)
    case Not => DecideAny(kept, no, yes)
  }

  /** Re-optimizing the children of a normal negation as a conjunction. */
  lemma {:induction false} CollapsedConjunction(ns: seq<Filter>, yes: Decision, no: Decision)
    requires ns != [] && forall i :: 0 <= i < |ns| ==> Normal(ns[i])
    ensures var r := Optimize(Group(And, ns)); r.Some? && Decide(r.value, yes, no) == DecideEvery(ns, yes, no)
    ensures |ns| == 1 && !IsGroup(ns[0], Not) ==> !IsGroup(Optimize(Group(And, ns)).value, Not)
    ensures |ns| > 1 ==> IsGroup(Optimize(Group(And, ns)).value, And)
  {
    NormalChildrenAreFixed(And, Group(And, ns), ns);
    SplicedEvery(ns, yes, no);
    SplicedLength(ns);
    var kept := Collect(And, ns);
    if |kept| == 1 { assert kept[1..] == []; }
  }

  lemma {:induction false} KeptSingleton(kind: Kind, kept: seq<Filter>, yes: Decision, no: Decision)
    requires |kept| == 1
    ensures DecideKept(kind, kept, yes, no) == if kind == Not then Decide(kept[0], no, yes) else Decide(kept[0], yes, no)
  {
    assert kept[1..] == [];
    assert DecideEvery(kept[1..], yes, no) == yes && DecideAny(kept[1..], yes, no) == no && DecideAny(kept[1..], no, yes) == yes;
  }

  lemma {:induction false} CollapsedSingleton(kept: seq<Filter>, ns: seq<Filter>, yes: Decision, no: Decision)
    requires kept == [Group(Not, ns)] && Normal(kept[0]) && |ns| == 1
    ensures var r := Optimize(Group(And, ns)); r.Some? && Decide(r.value, yes, no) == DecideAny(kept, no, yes)
  {
    assert kept[1..] == [] && ns[1..] == [];
    CollapsedConjunction(ns, yes, no);
    assert DecideEvery(ns, yes, no) == Decide(ns[0], yes, no) == DecideAny(ns, yes, no);
    assert DecideAny(kept, no, yes) == Decide(kept[0], no, yes);
  }

  lemma {:induction false} SplicedEvery(ns: seq<Filter>, yes: Decision, no: Decision)
    ensures DecideEvery(SpliceAll(And, ns), yes, no) == DecideEvery(ns, yes, no)
  {
    if ns != [] {
      SpliceEvery(ns[0], SpliceAll(And, ns[1..]), yes, no);
      SplicedEvery(ns[1..], yes, no);
    }
  }

  lemma {:induction false} SplicedLength(ns: seq<Filter>)
    requires forall i :: 0 <= i < |ns| ==> Normal(ns[i])
    ensures |SpliceAll(And, ns)| >= |ns|
    ensures |ns| == 1 && |SpliceAll(And, ns)| == 1 ==> SpliceAll(And, ns) == ns
  {
    if ns != [] { SplicedLength(ns[1..]); }
  }

  // ----- the condition and the optimizer

  /** What the optimizer's branch for double negations looks at. */
  predicate IsSeveralDenied(o: Option<Filter>) { o.Some? && IsGroup(o.value, Not) && |o.value.children| > 1 }

  predicate KeepsDenied(children: seq<Filter>) {
    var kept := Collect(Not, children);
    |kept| == 1 && IsSeveralDenied(Some(kept[0]))
  }

  lemma {:induction false} BearingIsKept(f: Filter)
    ensures Leaves(f) > 0 <==> Optimize(f).Some?
  {
    LeavesKept(f);
    OptimizedIsNormal(f);
    if Optimize(f).Some? { HeightExactly(Optimize(f).value, Done(true), Done(true)); }
  }

  lemma {:induction false} SplicedSome(kind: Kind, o: Filter)
    requires Normal(o)
    ensures Splice(kind, o) != []
  {
  }

  /** What is collected of filters is what is collected of those that hold a leaf. */
  lemma {:induction false} BearingCollected(kind: Kind, fs: seq<Filter>)
    ensures Bearing(fs) == [] ==> Collect(kind, fs) == []
    ensures |Bearing(fs)| == 1 ==> Optimize(Bearing(fs)[0]).Some? && Collect(kind, fs) == Splice(kind, Optimize(Bearing(fs)[0]).value)
    ensures Bearing(fs) != [] ==> Collect(kind, fs) != []
    ensures |Bearing(fs)| > 1 ==> |Collect(kind, fs)| > 1
  {
    if fs != [] {
      BearingIsKept(fs[0]);
      OptimizedIsNormal(fs[0]);
      BearingCollected(kind, fs[1..]);
      if Optimize(fs[0]).Some? { SplicedSome(kind, Optimize(fs[0]).value); }
    }
  }

  lemma {:induction false} DeniesExactly(f: Filter)
    ensures DeniesSeveral(f) <==> IsSeveralDenied(Optimize(f))
    decreases Size(f), 1
  {
    if f.Group? {
      var some := Bearing(f.children);
      BearingCollected(f.kind, f.children);
      if |some| == 1 { DeniesOne(f, some[0]); }
    }
  }

  lemma {:induction false} DeniesOne(f: Filter, only: Filter)
    requires f.Group? && Size(only) < Size(f) && Bearing(f.children) == [only]
    requires Optimize(only).Some? && Collect(f.kind, f.children) == Splice(f.kind, Optimize(only).value)
    ensures DeniesSeveral(f) <==> IsSeveralDenied(Optimize(f))
    decreases Size(f), 0
  {
    DeniesExactly(only);
    OptimizedIsNormal(only);
    var o := Optimize(only).value;
    if f.kind == Not && IsGroup(o, Not) { CollapsedConjunction(o.children, Done(true), Done(true)); }
  }

  lemma {:induction false} CollapsesExactly(children: seq<Filter>)
    ensures Collapses(children) <==> KeepsDenied(children)
  {
    BearingCollected(Not, children);
    if |Bearing(children)| == 1 { DeniesExactly(Bearing(children)[0]); }
  }

  // ----- the condition is sufficient

  lemma {:induction false} FaithfulKeeps(f: Filter, neutral: bool, yes: Decision, no: Decision)
    requires Faithful(f, neutral)
    ensures match Optimize(f)
            case None => Decide(f, yes, no) == if neutral then yes else no
            case Some(o) => Decide(f, yes, no) == Decide(o, yes, no)
    decreases f, 0
  {
    LeavesKept(f);
    OptimizedIsNormal(f);
    if Optimize(f).Some? { HeightExactly(Optimize(f).value, yes, no); }
    if Leaves(f) == 0 { DroppedIsConstant(f, yes, no); }
    else if f.Group? {
      var kept := Collect(f.kind, f.children);
      CollectedIsNormal(f.kind, f.children);
      CollapsesExactly(f.children);
      FaithfulKeepsAll(f, f.kind, f.children, yes, no);
      assert Decide(f, yes, no) == DecideKept(f.kind, kept, yes, no);
      if |kept| == 1 {
        KeptSingleton(f.kind, kept, yes, no);
        if f.kind == Not && IsGroup(kept[0], Not) { CollapsedSingleton(kept, kept[0].children, yes, no); }
      }
    }
  }

  lemma {:induction false} FaithfulKeepsAll(parent: Filter, kind: Kind, fs: seq<Filter>, yes: Decision, no: Decision)
    requires forall i :: 0 <= i < |fs| ==> fs[i] < parent && Faithful(fs[i], kind == And)
    ensures DecideKept(kind, fs, yes, no) == DecideKept(kind, Collect(kind, fs), yes, no)
    decreases parent, -1, |fs|
  {
    if fs != [] {
      var rest := Collect(kind, fs[1..]);
      FaithfulKeepsAll(parent, kind, fs[1..], yes, no);
      match kind
      case And =>
        FaithfulKeeps(fs[0], true, DecideEvery(fs[1..], yes, no), no);
        if Optimize(fs[0]).Some? { SpliceEvery(Optimize(fs[0]).value, rest, yes, no); }
      case Or =>
        FaithfulKeeps(fs[0], false, yes, DecideAny(fs[1..], yes, no));
        if Optimize(fs[0]).Some? { SpliceAny(Or, Optimize(fs[0]).value, rest, yes, no); }
      case Not =>
        FaithfulKeeps(fs[0], false, no, DecideAny(fs[1..], no, yes));
        if Optimize(fs[0]).Some? { SpliceAny(Not, Optimize(fs[0]).value, rest, no, yes); }
    }
  }
}
