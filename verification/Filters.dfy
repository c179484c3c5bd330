/** Filter trees: parsing, testing and the optimizer of combined filters. */
module Filters {
  import opened Platforms
  import opened Parsing
  import opened Formulas

  datatype Kind = And | Or | Not

  datatype Filter = Test(leaf: Body) | Group(kind: Kind, children: seq<Filter>)

  // ----- testing

  datatype Verdict = Holds | Fails | Throws

  /** Evaluates one leaf. The state `S` is whatever the row's context carries
      from one leaf to the next: its formula cache, for instance. */
  type Asker<!S> = (Body, S) -> (Verdict, S)

  /** `testFilter`. */
  function Run<S>(f: Filter, ask: Asker<S>, s: S): (Verdict, S)
    decreases f, 0
  {
    match f
    case Test(leaf) => ask(leaf, s)
    case Group(And, children) => Every(children, ask, s)
    case Group(Or, children) => Any(children, ask, s)
    case Group(Not, children) =>
      var (v, s') := Any(children, ask, s);
      (if v.Holds? then Fails else if v.Fails? then Holds else Throws, s')
  }

  function Every<S>(fs: seq<Filter>, ask: Asker<S>, s: S): (Verdict, S)
    decreases fs, 1
  {
    if fs == [] then (Holds, s)
    else
      var (v, s') := Run(fs[0], ask, s);
      if v.Holds? then Every(fs[1..], ask, s') else (v, s')
  }

  function Any<S>(fs: seq<Filter>, ask: Asker<S>, s: S): (Verdict, S)
    decreases fs, 1
  {
    if fs == [] then (Fails, s)
    else
      var (v, s') := Run(fs[0], ask, s);
      if v.Fails? then Any(fs[1..], ask, s') else (v, s')
  }

  // ----- optimizing

  function Size(f: Filter): (n: nat)
    ensures n > 0
  {
    match f
    case Test(_) => 1
    case Group(_, children) => 1 + SizeAll(children)
  }

  function SizeAll(fs: seq<Filter>): (n: nat)
    ensures fs != [] ==> n >= Size(fs[0])
  {
    if fs == [] then 0 else Size(fs[0]) + SizeAll(fs[1..])
  }

  lemma {:induction false} SizeAppend(a: seq<Filter>, b: seq<Filter>)
    ensures SizeAll(a + b) == SizeAll(a) + SizeAll(b)
  {
    if a == [] { assert a + b == b; }
    else {
      assert (a + b)[1..] == a[1..] + b;
      SizeAppend(a[1..], b);
    }
  }

  /** `optimize`: nothing when every leaf has been dropped. The result is never
      larger, which is why optimizing a collapsed double negation again ends. */
  function Optimize(f: Filter): (r: Option<Filter>)
    ensures r.Some? ==> Size(r.value) <= Size(f)
    decreases Size(f), 0
  {
    match f
    case Test(_) => Some(f)
    case Group(kind, children) =>
      var kept := Collect(kind, children);
      if kept == [] then None
      else if kind != Not && |kept| == 1 then Some(kept[0])
      else if kind == Not && |kept| == 1 && kept[0].Group? && kept[0].kind == Not then
        Optimize(Group(And, kept[0].children))
      else Some(Group(kind, kept))
  }

  /** The optimized children, with those of the same conjunction spliced in. */
  function Collect(kind: Kind, fs: seq<Filter>): (kept: seq<Filter>)
    ensures SizeAll(kept) <= SizeAll(fs)
    decreases SizeAll(fs), 1
  {
    if fs == [] then []
    else
      var first, rest := Optimize(fs[0]), Collect(kind, fs[1..]);
      if first.None? then rest
      else
        var spliced := Splice(kind, first.value);
        SizeAppend(spliced, rest);
        spliced + rest
  }

  function Splice(kind: Kind, f: Filter): (fs: seq<Filter>)
    ensures SizeAll(fs) <= Size(f)
  {
    if kind != Not && f.Group? && f.kind == kind then f.children else [f]
  }

  /** The optimizer with its push loop. */
  method OptimizeFilter(f: Filter) returns (r: Option<Filter>)
    ensures r == Optimize(f)
    decreases Size(f), 0
  {
    if f.Test? { return Some(f); }
    var kept := CollectChildren(f.kind, f.children);
    if kept == [] { return None; }
    if f.kind != Not && |kept| == 1 { return Some(kept[0]); }
    if f.kind == Not && |kept| == 1 && kept[0].Group? && kept[0].kind == Not {
      r := OptimizeFilter(Group(And, kept[0].children));
      return;
    }
    return Some(Group(f.kind, kept));
  }

  method CollectChildren(kind: Kind, fs: seq<Filter>) returns (kept: seq<Filter>)
    ensures kept == Collect(kind, fs)
    decreases SizeAll(fs), 1
  {
    kept := [];
    var i := 0;
    while i < |fs|
      invariant i <= |fs|
      invariant Collects(kind, fs[i..], kept, Collect(kind, fs))
    {
      SizeChild(fs, i);
      var optimized := OptimizeFilter(fs[i]);
      CollectAt(kind, fs, i, kept, Collect(kind, fs));
      if optimized.Some? {
        if kind != Not && optimized.value.Group? && optimized.value.kind == kind {
          kept := kept + optimized.value.children;
        } else {
          kept := kept + [optimized.value];
        }
      }
      i := i + 1;
    }
    CollectsNone(kind, fs[i..], kept, Collect(kind, fs));
  }

  /** What is kept and what the rest adds make up `all`; unfolded only on demand. */
  ghost predicate Collects(kind: Kind, rest: seq<Filter>, kept: seq<Filter>, all: seq<Filter>) {
    forall fs {:trigger Collect(kind, fs)} :: fs == rest ==> kept + Collect(kind, fs) == all
  }

  lemma {:induction false} CollectsNone(kind: Kind, rest: seq<Filter>, kept: seq<Filter>, all: seq<Filter>)
    requires rest == [] && Collects(kind, rest, kept, all)
    ensures kept == all
  {
    assert kept + Collect(kind, rest) == all && kept + [] == kept;
  }

  lemma {:induction false} CollectSuffix(kind: Kind, fs: seq<Filter>, i: nat)
    requires i < |fs|
    ensures Collect(kind, fs[i..])
         == (if Optimize(fs[i]).None? then [] else Splice(kind, Optimize(fs[i]).value)) + Collect(kind, fs[i + 1..])
  {
    assert fs[i..][0] == fs[i] && fs[i..][1..] == fs[i + 1..];
    assert [] + Collect(kind, fs[i + 1..]) == Collect(kind, fs[i + 1..]);
  }

  lemma {:induction false} CollectAt(kind: Kind, fs: seq<Filter>, i: nat, kept: seq<Filter>, all: seq<Filter>)
    requires i < |fs| && Collects(kind, fs[i..], kept, all)
    ensures Collects(kind, fs[i + 1..], if Optimize(fs[i]).None? then kept else kept + Splice(kind, Optimize(fs[i]).value), all)
  {
    var spliced := if Optimize(fs[i]).None? then [] else Splice(kind, Optimize(fs[i]).value);
    CollectSuffix(kind, fs, i);
    assert kept + Collect(kind, fs[i..]) == all;
    Joined(kept, spliced, Collect(kind, fs[i + 1..]));
    assert kept + [] == kept;
  }

  lemma {:induction false} SizeChild(fs: seq<Filter>, i: nat)
    requires i < |fs|
    ensures Size(fs[i]) <= SizeAll(fs)
  {
    if i > 0 { SizeChild(fs[1..], i - 1); }
  }

  // ----- the shape of optimized filters

  /** No empty group, no conjunction directly inside itself, no lone child of
      and/or, and no negation of a lone negation. */
  predicate Normal(f: Filter) {
    match f
    case Test(_) => true
    case Group(kind, children) =>
      && children != []
      && (forall i :: 0 <= i < |children| ==> Normal(children[i]))
      && (kind != Not ==> |children| > 1 && forall i :: 0 <= i < |children| ==> !IsGroup(children[i], kind))
      && (kind == Not && |children| == 1 ==> !IsGroup(children[0], Not))
  }

  predicate IsGroup(f: Filter, kind: Kind) { f.Group? && f.kind == kind }

  /** Everything `Collect` keeps is normal and spliced. */
  predicate NormalAll(kind: Kind, fs: seq<Filter>) {
    forall i :: 0 <= i < |fs| ==> Normal(fs[i]) && (kind != Not ==> !IsGroup(fs[i], kind))
  }

  lemma {:induction false} OptimizedIsNormal(f: Filter)
    ensures Optimize(f).Some? ==> Normal(Optimize(f).value)
    decreases Size(f), 0
  {
    if f.Group? {
      CollectedIsNormal(f.kind, f.children);
      var kept := Collect(f.kind, f.children);
      if f.kind == Not && |kept| == 1 && IsGroup(kept[0], Not) {
        OptimizedIsNormal(Group(And, kept[0].children));
      }
    }
  }

  lemma {:induction false} CollectedIsNormal(kind: Kind, fs: seq<Filter>)
    ensures NormalAll(kind, Collect(kind, fs))
    decreases SizeAll(fs), 1
  {
    if fs != [] {
      OptimizedIsNormal(fs[0]);
      CollectedIsNormal(kind, fs[1..]);
    }
  }

  /** A normal filter is left as it is. */
  lemma {:induction false} NormalIsFixed(f: Filter)
    requires Normal(f)
    ensures Optimize(f) == Some(f)
    decreases f, 0
  {
    if f.Group? {
      NormalChildrenAreFixed(f.kind, f, f.children);
      SplicedSame(f.kind, f.children);
    }
  }

  function SpliceAll(kind: Kind, fs: seq<Filter>): seq<Filter> {
    if fs == [] then [] else Splice(kind, fs[0]) + SpliceAll(kind, fs[1..])
  }

  lemma {:induction false} NormalChildrenAreFixed(kind: Kind, parent: Filter, fs: seq<Filter>)
    requires forall i :: 0 <= i < |fs| ==> fs[i] < parent && Normal(fs[i])
    ensures Collect(kind, fs) == SpliceAll(kind, fs)
    decreases parent, -1, |fs|
  {
    if fs != [] {
      NormalIsFixed(fs[0]);
      NormalChildrenAreFixed(kind, parent, fs[1..]);
    }
  }

  lemma {:induction false} SplicedSame(kind: Kind, fs: seq<Filter>)
    requires NormalAll(kind, fs)
    ensures SpliceAll(kind, fs) == fs
  {
    if fs != [] { SplicedSame(kind, fs[1..]); }
  }

  /** Optimizing twice is optimizing once. */
  lemma {:induction false} OptimizeTwice(f: Filter)
    ensures Optimize(f).Some? ==> Optimize(Optimize(f).value) == Optimize(f)
  {
    OptimizedIsNormal(f);
    if Optimize(f).Some? { NormalIsFixed(Optimize(f).value); }
  }
}
