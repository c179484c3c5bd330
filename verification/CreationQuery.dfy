/** A new note with inferred properties passes the filter that the query tests. */
module CreationQuery {
  import opened Platforms
  import opened Syntax
  import opened Parsing
  import opened Evaluation
  import opened Formulas
  import opened Filters
  import opened FilterExact
  import opened FilterParsing
  import opened Printing
  import opened RoundTrip
  import opened FilterLiterals
  import opened FilterConditions
  import opened CreationDefaults
  import CreationSound

  // ----- what the optimizer leaves of and/or groups

  predicate Positive(f: Filter) {
    f.Group? ==> f.kind != Not && forall i :: 0 <= i < |f.children| ==> Positive(f.children[i])
  }

  predicate HasLeaf(f: Filter) {
    f.Test? || exists i :: 0 <= i < |f.children| && HasLeaf(f.children[i])
  }

  /** No leaf throws. */
  predicate Calm(c: Config, levels: nat, budget: nat, f: Filter) {
    match f
    case Test(leaf) => CreationSound.Judge(c, levels, budget, leaf) != Throws
    case Group(_, children) => forall i :: 0 <= i < |children| ==> Calm(c, levels, budget, children[i])
  }

  /** Whether the filter holds when its parts without a leaf are taken out. */
  predicate Left(c: Config, levels: nat, budget: nat, f: Filter) {
    match f
    case Test(leaf) => CreationSound.Judge(c, levels, budget, leaf) == Holds
    case Group(And, children) => forall i :: 0 <= i < |children| && HasLeaf(children[i]) ==> Left(c, levels, budget, children[i])
    case Group(_, children) => exists i :: 0 <= i < |children| && HasLeaf(children[i]) && Left(c, levels, budget, children[i])
  }

  function Tests(c: Config, levels: nat, budget: nat, kind: Kind, fs: seq<Filter>): Verdict {
    if kind == And then Every(fs, CreationSound.Judging(c, levels, budget), ()).0
    else Any(fs, CreationSound.Judging(c, levels, budget), ()).0
  }

  lemma {:induction false} TestsFirst(c: Config, levels: nat, budget: nat, kind: Kind, f: Filter, rest: seq<Filter>)
    ensures Tests(c, levels, budget, kind, [f] + rest)
         == var v := CreationSound.Verdict0(c, levels, budget, f);
            if v == (if kind == And then Holds else Fails) then Tests(c, levels, budget, kind, rest) else v
  {
    var all := [f] + rest;
    assert all[0] == f && all[1..] == rest;
    var (v, s) := Run(f, CreationSound.Judging(c, levels, budget), ());
    assert s == () && v == CreationSound.Verdict0(c, levels, budget, f);
  }

  lemma {:induction false} TestsJoined(c: Config, levels: nat, budget: nat, kind: Kind, a: seq<Filter>, b: seq<Filter>)
    ensures Tests(c, levels, budget, kind, a + b)
         == var v := Tests(c, levels, budget, kind, a);
            if v == (if kind == And then Holds else Fails) then Tests(c, levels, budget, kind, b) else v
    decreases a
  {
    if a == [] { assert a + b == b; }
    else {
      assert a == [a[0]] + a[1..] && a + b == [a[0]] + (a[1..] + b);
      TestsFirst(c, levels, budget, kind, a[0], a[1..]);
      TestsFirst(c, levels, budget, kind, a[0], a[1..] + b);
      TestsJoined(c, levels, budget, kind, a[1..], b);
    }
  }

  lemma {:induction false} TestsOne(c: Config, levels: nat, budget: nat, kind: Kind, f: Filter)
    ensures Tests(c, levels, budget, kind, [f]) == CreationSound.Verdict0(c, levels, budget, f)
  {
    assert [f] + [] == [f];
    TestsFirst(c, levels, budget, kind, f, []);
  }

  lemma {:induction false} SplicedTests(c: Config, levels: nat, budget: nat, kind: Kind, f: Filter)
    requires kind != Not
    ensures Tests(c, levels, budget, kind, Splice(kind, f)) == CreationSound.Verdict0(c, levels, budget, f)
  {
    if !(f.Group? && f.kind == kind) { TestsOne(c, levels, budget, kind, f); }
  }

  function Verdicts(holds: bool): Verdict { if holds then Holds else Fails }

  /** A filter without `not` is optimized to nothing when it has no leaf, and else
      decides as what is left of it. */
  lemma {:induction false} OptimizedTests(c: Config, levels: nat, budget: nat, f: Filter)
    requires Positive(f) && Calm(c, levels, budget, f)
    ensures Optimize(f).Some? <==> HasLeaf(f)
    ensures HasLeaf(f) ==> CreationSound.Verdict0(c, levels, budget, Optimize(f).value) == Verdicts(Left(c, levels, budget, f))
    decreases f, 0
  {
    if f.Group? {
      CollectedTests(c, levels, budget, f.kind, f, f.children);
      var kept := Collect(f.kind, f.children);
      if |kept| == 1 { TestsOne(c, levels, budget, f.kind, kept[0]); assert kept == [kept[0]]; }
    }
  }

  predicate SomeLeaf(fs: seq<Filter>) { exists i :: 0 <= i < |fs| && HasLeaf(fs[i]) }

  predicate AllLeft(c: Config, levels: nat, budget: nat, fs: seq<Filter>) {
    forall i :: 0 <= i < |fs| && HasLeaf(fs[i]) ==> Left(c, levels, budget, fs[i])
  }

  predicate AnyLeft(c: Config, levels: nat, budget: nat, fs: seq<Filter>) {
    exists i :: 0 <= i < |fs| && HasLeaf(fs[i]) && Left(c, levels, budget, fs[i])
  }

  lemma {:induction false} CollectedTests(c: Config, levels: nat, budget: nat, kind: Kind, parent: Filter, fs: seq<Filter>)
    requires kind != Not && forall i :: 0 <= i < |fs| ==> fs[i] < parent && Positive(fs[i]) && Calm(c, levels, budget, fs[i])
    ensures Collect(kind, fs) == [] <==> !SomeLeaf(fs)
    ensures kind == And ==> Tests(c, levels, budget, kind, Collect(kind, fs)) == Verdicts(AllLeft(c, levels, budget, fs))
    ensures kind == Or ==> Tests(c, levels, budget, kind, Collect(kind, fs)) == Verdicts(AnyLeft(c, levels, budget, fs))
    decreases parent, -1, |fs|
  {
    if fs != [] {
      var first, rest := Optimize(fs[0]), Collect(kind, fs[1..]);
      assert fs == [fs[0]] + fs[1..];
      OptimizedTests(c, levels, budget, fs[0]);
      CollectedTests(c, levels, budget, kind, parent, fs[1..]);
      FirstLeft(c, levels, budget, fs);
      if first.Some? {
        var spliced := Splice(kind, first.value);
        SplicedTests(c, levels, budget, kind, first.value);
        TestsJoined(c, levels, budget, kind, spliced, rest);
        OptimizedIsNormal(fs[0]);
        assert spliced != [];
      }
    }
  }

  lemma {:induction false} FirstLeft(c: Config, levels: nat, budget: nat, fs: seq<Filter>)
    requires fs != []
    ensures SomeLeaf(fs) <==> HasLeaf(fs[0]) || SomeLeaf(fs[1..])
    ensures AllLeft(c, levels, budget, fs) <==> (HasLeaf(fs[0]) ==> Left(c, levels, budget, fs[0])) && AllLeft(c, levels, budget, fs[1..])
    ensures AnyLeft(c, levels, budget, fs) <==> (HasLeaf(fs[0]) && Left(c, levels, budget, fs[0])) || AnyLeft(c, levels, budget, fs[1..])
  {
    assert forall i :: 0 < i < |fs| ==> fs[i] == fs[1..][i - 1];
    assert forall i :: 0 <= i < |fs[1..]| ==> fs[1..][i] == fs[i + 1];
  }

  // ----- inference on groups

  ghost predicate Reads(p: Platform, v: Stored, f: Filter, levels: nat, budget: nat) { CreationSound.Reads(p, v, f, levels, budget) }

  lemma {:induction false} CoveredIsPositive(c: Config, x: Host, note: seq<Field>, v: Stored, f: Filter, levels: nat, budget: nat)
    requires CreationSound.Setting(c, x, note) && Reads(c.platform, v, f, levels, budget)
    ensures Positive(f) && Calm(c, levels, budget, f)
    decreases v
  {
    if v.Text? { CreationSound.LeafVerdict(c, x, note, ParseText(c.platform, v.text).value, levels, budget); }
    else {
      CreationSound.ReadsItems(c.platform, v, f, levels, budget);
      forall i | 0 <= i < |f.children| ensures Positive(f.children[i]) && Calm(c, levels, budget, f.children[i]) {
        CoveredIsPositive(c, x, note, v.values[0].items[i], f.children[i], levels, budget);
      }
    }
  }

  /** Only the warning may differ. */
  predicate NothingMore(h: Hints, h': Hints) { h'.fields == h.fields && h'.folder == h.folder && h'.title == h.title }

  lemma {:induction false} LeaflessGivesNothing(p: Platform, x: Host, h: Hints, v: Stored, f: Filter, levels: nat, budget: nat)
    requires Reads(p, v, f, levels, budget) && !HasLeaf(f)
    ensures NothingMore(h, InferFilter(p, x, h, v))
    decreases v, 1
  {
    if v.Mapping? {
      CreationSound.ReadsItems(p, v, f, levels, budget);
      var items := v.values[0].items;
      if v.keys[0] == "and" { AllGiveNothing(p, x, h, v, items, f.children, levels, budget); }
      else if items != [] {
        var branches := InferEach(p, x, items);
        var i := Chosen(branches);
        CreationSound.EachAt(p, x, items, i);
        LeaflessGivesNothing(p, x, NO_HINTS, items[i], f.children[i], levels, budget);
        MergedNothing(p, x, h, branches[i]);
      }
    }
  }

  lemma {:induction false} MergedNothing(p: Platform, x: Host, h: Hints, other: Hints)
    requires NothingMore(NO_HINTS, other)
    ensures NothingMore(h, Merge(p, x, h, other))
  {
    assert (other.fields - RESERVED) + h.fields == h.fields;
  }

  lemma {:induction false} AllGiveNothing(p: Platform, x: Host, h: Hints, parent: Stored, vs: seq<Stored>, fs: seq<Filter>, levels: nat, budget: nat)
    requires CreationSound.ReadsAll(p, vs, fs, levels, budget) && forall i :: 0 <= i < |vs| ==> vs[i] < parent && !HasLeaf(fs[i])
    ensures NothingMore(h, InferAll(p, x, h, vs))
    decreases parent, 0, |vs|
  {
    if vs != [] {
      LeaflessGivesNothing(p, x, h, vs[0], fs[0], levels, budget);
      AllGiveNothing(p, x, InferFilter(p, x, h, vs[0]), parent, vs[1..], fs[1..], levels, budget);
    }
  }

  // ----- what the inferred branches have to say

  function Items(v: Stored): seq<Stored> {
    if v.Mapping? && |v.values| == 1 && v.values[0].Sequence? then v.values[0].items else []
  }

  /** The branch of `or` that inference follows. */
  function Branch(p: Platform, x: Host, items: seq<Stored>): (i: nat)
    ensures items != [] ==> i < |items|
  {
    if items == [] then 0 else Chosen(InferEach(p, x, items))
  }

  /** Each `or` with a leaf that inference meets has one in its first branch, or a branch
      that gives a hint. */
  predicate Anchored(p: Platform, x: Host, v: Stored, f: Filter)
    decreases f
  {
    var items := Items(v);
    f.Group? && |items| == |f.children| ==>
      if f.kind == And then forall i :: 0 <= i < |items| ==> Anchored(p, x, items[i], f.children[i])
      else
        HasLeaf(f) ==>
          (HasLeaf(f.children[0]) || exists i :: 0 <= i < |items| && Useful(InferFilter(p, x, NO_HINTS, items[i])))
          && Anchored(p, x, items[Branch(p, x, items)], f.children[Branch(p, x, items)])
  }

  /** The same, or a leaf of the `or` holds on the row all the same. */
  predicate Stands(c: Config, x: Host, levels: nat, budget: nat, v: Stored, f: Filter)
    decreases f
  {
    var items := Items(v);
    f.Group? && |items| == |f.children| ==>
      if f.kind == And then forall i :: 0 <= i < |items| ==> Stands(c, x, levels, budget, items[i], f.children[i])
      else
        HasLeaf(f) ==>
          var i := Branch(c.platform, x, items);
          (HasLeaf(f.children[i]) && Stands(c, x, levels, budget, items[i], f.children[i])) || AnyLeft(c, levels, budget, f.children)
  }

  lemma {:induction false} LeaflessStands(c: Config, x: Host, levels: nat, budget: nat, v: Stored, f: Filter)
    requires !HasLeaf(f)
    ensures Stands(c, x, levels, budget, v, f)
    decreases f
  {
    if f.Group? && f.kind == And && |Items(v)| == |f.children| {
      forall i | 0 <= i < |f.children| ensures Stands(c, x, levels, budget, Items(v)[i], f.children[i]) {
        LeaflessStands(c, x, levels, budget, Items(v)[i], f.children[i]);
      }
    }
  }

  /** The branch that inference follows has a leaf when the first one has, or one is useful. */
  lemma {:induction false} BranchHasLeaf(p: Platform, x: Host, items: seq<Stored>, fs: seq<Filter>, levels: nat, budget: nat)
    requires CreationSound.ReadsAll(p, items, fs, levels, budget) && items != []
    ensures var i := Branch(p, x, items);
            HasLeaf(fs[0]) || (exists i :: 0 <= i < |items| && Useful(InferFilter(p, x, NO_HINTS, items[i]))) ==> HasLeaf(fs[i])
  {
    var i, branches := Branch(p, x, items), InferEach(p, x, items);
    forall k | 0 <= k < |items| ensures Useful(branches[k]) ==> HasLeaf(fs[k]) {
      CreationSound.EachAt(p, x, items, k);
      if !HasLeaf(fs[k]) { LeaflessGivesNothing(p, x, NO_HINTS, items[k], fs[k], levels, budget); }
    }
    ChosenUseful(branches);
    forall k | 0 <= k < |items| ensures branches[k] == InferFilter(p, x, NO_HINTS, items[k]) { CreationSound.EachAt(p, x, items, k); }
  }

  lemma {:induction false} ChosenUseful(branches: seq<Hints>)
    requires branches != []
    ensures (exists i :: 0 <= i < |branches| && Useful(branches[i])) ==> Useful(branches[Chosen(branches)])
    decreases branches
  {
    if !Useful(branches[0]) && |branches| > 1 {
      ChosenUseful(branches[1..]);
      assert forall i :: 0 < i < |branches| ==> branches[i] == branches[1..][i - 1];
    }
  }

  lemma {:induction false} AnchoredStands(c: Config, x: Host, levels: nat, budget: nat, v: Stored, f: Filter)
    requires Reads(c.platform, v, f, levels, budget) && Anchored(c.platform, x, v, f)
    ensures Stands(c, x, levels, budget, v, f)
    decreases f
  {
    if v.Mapping? {
      CreationSound.ReadsItems(c.platform, v, f, levels, budget);
      var items := Items(v);
      if f.kind == And {
        forall i | 0 <= i < |items| ensures Stands(c, x, levels, budget, items[i], f.children[i]) {
          AnchoredStands(c, x, levels, budget, items[i], f.children[i]);
        }
      } else if HasLeaf(f) {
        BranchHasLeaf(c.platform, x, items, f.children, levels, budget);
        AnchoredStands(c, x, levels, budget, items[Branch(c.platform, x, items)], f.children[Branch(c.platform, x, items)]);
      }
    }
  }

  /** Without a warning, what the optimizer leaves of the filter holds of the row exactly
      when the filter stands. */
  ghost predicate LeftExactly(c: Config, x: Host, note: seq<Field>, h': Hints, v: Stored, f: Filter, levels: nat, budget: nat) {
    !h'.warned && CreationSound.Carries(c.platform, note, h'.fields) ==>
      ((HasLeaf(f) ==> Left(c, levels, budget, f)) <==> Stands(c, x, levels, budget, v, f))
  }

  lemma {:induction false} LeftSound(c: Config, x: Host, note: seq<Field>, h: Hints, v: Stored, f: Filter, levels: nat, budget: nat)
    requires CreationSound.Setting(c, x, note) && Reads(c.platform, v, f, levels, budget)
    ensures LeftExactly(c, x, note, InferFilter(c.platform, x, h, v), v, f, levels, budget)
    decreases v, 1
  {
    var p := c.platform;
    if v.Text? {
      CreationSound.FilterSound(c, x, note, h, v, f, levels, budget);
      var (w, s) := Run(f, CreationSound.Judging(c, levels, budget), ());
      assert w == CreationSound.Judge(c, levels, budget, f.leaf);
    } else {
      CreationSound.ReadsItems(p, v, f, levels, budget);
      if v.keys[0] == "and" {
        AllLeftSound(c, x, note, h, v, v.values[0].items, f.children, levels, budget);
        AllLeftIs(c, levels, budget, f);
      } else { AnyLeftSound(c, x, note, h, v, f, levels, budget); }
    }
  }

  lemma {:induction false} AllLeftIs(c: Config, levels: nat, budget: nat, f: Filter)
    requires f.Group? && f.kind == And
    ensures (HasLeaf(f) ==> Left(c, levels, budget, f)) <==> AllLeft(c, levels, budget, f.children)
  {
  }

  predicate AllStand(c: Config, x: Host, levels: nat, budget: nat, vs: seq<Stored>, fs: seq<Filter>) {
    forall i :: 0 <= i < |vs| && i < |fs| ==> Stands(c, x, levels, budget, vs[i], fs[i])
  }

  lemma {:induction false} FirstStands(c: Config, x: Host, levels: nat, budget: nat, vs: seq<Stored>, fs: seq<Filter>)
    requires |vs| == |fs| > 0
    ensures AllStand(c, x, levels, budget, vs, fs) <==> Stands(c, x, levels, budget, vs[0], fs[0]) && AllStand(c, x, levels, budget, vs[1..], fs[1..])
  {
    assert forall i :: 0 < i < |fs| ==> fs[i] == fs[1..][i - 1] && vs[i] == vs[1..][i - 1];
  }

  lemma {:induction false} AllLeftSound(c: Config, x: Host, note: seq<Field>, h: Hints, parent: Stored, vs: seq<Stored>, fs: seq<Filter>, levels: nat, budget: nat)
    requires CreationSound.Setting(c, x, note) && CreationSound.ReadsAll(c.platform, vs, fs, levels, budget)
    requires forall i :: 0 <= i < |vs| ==> vs[i] < parent
    ensures var h' := InferAll(c.platform, x, h, vs);
            !h'.warned && CreationSound.Carries(c.platform, note, h'.fields) ==>
              (AllLeft(c, levels, budget, fs) <==> AllStand(c, x, levels, budget, vs, fs))
    decreases parent, 0, |vs|
  {
    if vs != [] {
      var h1 := InferFilter(c.platform, x, h, vs[0]);
      var h2 := InferAll(c.platform, x, h1, vs[1..]);
      LeftSound(c, x, note, h, vs[0], fs[0], levels, budget);
      AllLeftSound(c, x, note, h1, parent, vs[1..], fs[1..], levels, budget);
      CreationSound.AllSound(c, x, note, h1, parent, vs[1..], fs[1..], levels, budget);
      FirstLeft(c, levels, budget, fs);
      FirstStands(c, x, levels, budget, vs, fs);
      if !h2.warned && CreationSound.Carries(c.platform, note, h2.fields) {
        CreationSound.CarriesEarlier(c.platform, note, h1, h2);
      }
    }
  }

  lemma {:induction false} AnyLeftSound(c: Config, x: Host, note: seq<Field>, h: Hints, v: Stored, f: Filter, levels: nat, budget: nat)
    requires CreationSound.Setting(c, x, note) && Reads(c.platform, v, f, levels, budget) && v.Mapping? && v.keys[0] == "or"
    ensures LeftExactly(c, x, note, InferFilter(c.platform, x, h, v), v, f, levels, budget)
    decreases v, 0
  {
    var p, items := c.platform, v.values[0].items;
    CreationSound.ReadsItems(p, v, f, levels, budget);
    var branches := InferEach(p, x, items);
    var h' := Alternatives(p, x, h, branches);
    AlternativesExtend(p, x, h, branches);
    if !h'.warned && CreationSound.Carries(p, note, h'.fields) && HasLeaf(f) {
      var i := Chosen(branches);
      CreationSound.EachAt(p, x, items, i);
      CreationSound.CarriesMore(p, note, h', branches[i].fields);
      LeftSound(c, x, note, NO_HINTS, items[i], f.children[i], levels, budget);
      assert Left(c, levels, budget, f) <==> AnyLeft(c, levels, budget, f.children);
    }
  }

  // ----- the filter a query tests

  function StoredOf(v: Option<Stored>): Stored { if v.Some? then v.value else Empty }

  /** A covered filter within the depth limit, and what it is read as. */
  ghost predicate Readable(p: Platform, v: Stored, levels: nat, budget: nat) {
    && CreationSound.CoveredFilter(p, v) && Within(v, MAX_FILTER_DEPTH)
    && (ParseFilter(p, v, 0).Some? ==> CreationSound.Roomy(ParseFilter(p, v, 0).value, levels, budget))
  }

  lemma {:induction false} ReadableReads(p: Platform, v: Stored, levels: nat, budget: nat)
    requires Readable(p, v, levels, budget)
    ensures Read(p, v).Valid? && Reads(p, v, Read(p, v).filter, levels, budget)
  {
    CreationSound.CoveredIsShaped(p, v);
    ParsesWhenShaped(p, v, 0);
    if v.Text? && v.text == "" {
      EndOfText(p);
    }
  }

  function FilterOf(p: Platform, v: Stored): Filter {
    var read := Read(p, v);
    if read.Valid? then read.filter else Test(Broken)
  }

  /** When inference gives no warning, the row of a note with the inferred properties
      passes the filter that the query tests, when that is one of the two as it is written. */
  lemma {:induction false} LonePasses(c: Config, x: Host, note: seq<Field>, root: Option<Stored>, view: Option<Stored>, columns: seq<string>,
                                      levels: nat, budget: nat)
    requires CreationSound.Setting(c, x, note) && (root.None? || view.None?)
    requires root.Some? ==> Readable(c.platform, root.value, levels, budget)
    requires view.Some? ==> Readable(c.platform, view.value, levels, budget)
    requires var h := CreationSound.InferView(c.platform, x, root, view, columns);
             !h.warned && CreationSound.Carries(c.platform, note, h.fields)
    ensures var f := EffectiveFilter(c.platform, StoredOf(root), StoredOf(view));
            f.Accept? && RunOptional(f.filter, CreationSound.Judging(c, levels, budget), ()).0 == Holds
  {
    var p, f, g := c.platform, Test(Broken), Test(Broken);
    EffectiveConjoins(p, StoredOf(root), StoredOf(view));
    if root.Some? { ReadableReads(p, root.value, levels, budget); f := Read(p, root.value).filter; }
    if view.Some? { ReadableReads(p, view.value, levels, budget); g := Read(p, view.value).filter; }
    CreationSound.DefaultsPassBoth(c, x, note, root, view, columns, f, g, levels, budget);
  }

  /** Two filters are combined and optimized, and the row passes exactly when each stands:
      an `or` that inference cannot satisfy must hold by one of its other leaves. */
  lemma {:induction false} CombinedExactly(c: Config, x: Host, note: seq<Field>, root: Stored, view: Stored, columns: seq<string>, levels: nat, budget: nat)
    requires CreationSound.Setting(c, x, note) && Readable(c.platform, root, levels, budget) && Readable(c.platform, view, levels, budget)
    requires var h := CreationSound.InferView(c.platform, x, Some(root), Some(view), columns);
             !h.warned && CreationSound.Carries(c.platform, note, h.fields)
    ensures var f := EffectiveFilter(c.platform, root, view);
            f.Accept? && RunOptional(f.filter, CreationSound.Judging(c, levels, budget), ()).0
                         == Verdicts(Stands(c, x, levels, budget, root, FilterOf(c.platform, root)) && Stands(c, x, levels, budget, view, FilterOf(c.platform, view)))
  {
    var p, f, g := c.platform, FilterOf(c.platform, root), FilterOf(c.platform, view);
    ReadableReads(p, root, levels, budget);
    ReadableReads(p, view, levels, budget);
    PairEffective(c, root, view, levels, budget);
    var h1, h2 := CreationSound.CarriesBoth(c, x, note, Some(root), Some(view), columns, f, g, levels, budget);
    LeftSound(c, x, note, NO_HINTS, root, f, levels, budget);
    LeftSound(c, x, note, h1, view, g, levels, budget);
    CoveredIsPositive(c, x, note, root, f, levels, budget);
    CoveredIsPositive(c, x, note, view, g, levels, budget);
    PairHolds(c, f, g, levels, budget);
  }

  lemma {:induction false} PairEffective(c: Config, root: Stored, view: Stored, levels: nat, budget: nat)
    requires Readable(c.platform, root, levels, budget) && Readable(c.platform, view, levels, budget)
    ensures EffectiveFilter(c.platform, root, view) == Accept(Optimize(Group(And, [FilterOf(c.platform, root), FilterOf(c.platform, view)])))
  {
    EffectiveConjoins(c.platform, root, view);
    ReadableReads(c.platform, root, levels, budget);
    ReadableReads(c.platform, view, levels, budget);
  }

  /** An `or` whose first branch has no leaf, and none of whose branches gives a hint, is
      given nothing; when none of its leaves holds on the row, the row fails. */
  lemma {:induction false} UnanchoredFails(c: Config, x: Host, note: seq<Field>, root: Stored, view: Stored, columns: seq<string>, levels: nat, budget: nat)
    requires CreationSound.Setting(c, x, note) && Readable(c.platform, root, levels, budget) && Readable(c.platform, view, levels, budget)
    requires var h := CreationSound.InferView(c.platform, x, Some(root), Some(view), columns);
             !h.warned && CreationSound.Carries(c.platform, note, h.fields)
    requires var f, items := FilterOf(c.platform, root), Items(root);
             && f.Group? && f.kind == Or && |f.children| == |items| && HasLeaf(f) && !HasLeaf(f.children[0])
             && (forall i :: 0 <= i < |items| ==> !Useful(InferFilter(c.platform, x, NO_HINTS, items[i])))
             && !AnyLeft(c, levels, budget, f.children)
    ensures var f := EffectiveFilter(c.platform, root, view);
            f.Accept? && RunOptional(f.filter, CreationSound.Judging(c, levels, budget), ()).0 == Fails
  {
    var items := Items(root);
    CreationSound.EachAt(c.platform, x, items, Branch(c.platform, x, items));
    assert !Stands(c, x, levels, budget, root, FilterOf(c.platform, root));
    CombinedExactly(c, x, note, root, view, columns, levels, budget);
  }

  /** When inference gives no warning, the row of a note with the inferred properties
      passes the filter that the query tests, whenever a lone filter is tested as it is
      written, or both are anchored. */
  lemma {:induction false} DefaultsPassFilters(c: Config, x: Host, note: seq<Field>, root: Option<Stored>, view: Option<Stored>, columns: seq<string>,
                                               levels: nat, budget: nat)
    requires CreationSound.Setting(c, x, note)
    requires root.Some? ==> Readable(c.platform, root.value, levels, budget)
    requires view.Some? ==> Readable(c.platform, view.value, levels, budget)
    requires root.Some? && view.Some? ==>
               Anchored(c.platform, x, root.value, FilterOf(c.platform, root.value)) && Anchored(c.platform, x, view.value, FilterOf(c.platform, view.value))
    requires var h := CreationSound.InferView(c.platform, x, root, view, columns);
             !h.warned && CreationSound.Carries(c.platform, note, h.fields)
    ensures var f := EffectiveFilter(c.platform, StoredOf(root), StoredOf(view));
            f.Accept? && RunOptional(f.filter, CreationSound.Judging(c, levels, budget), ()).0 == Holds
  {
    if root.Some? && view.Some? {
      var p := c.platform;
      ReadableReads(p, root.value, levels, budget);
      ReadableReads(p, view.value, levels, budget);
      AnchoredStands(c, x, levels, budget, root.value, FilterOf(p, root.value));
      AnchoredStands(c, x, levels, budget, view.value, FilterOf(p, view.value));
      CombinedExactly(c, x, note, root.value, view.value, columns, levels, budget);
    } else { LonePasses(c, x, note, root, view, columns, levels, budget); }
  }

  lemma {:induction false} PairHolds(c: Config, f: Filter, g: Filter, levels: nat, budget: nat)
    requires Positive(f) && Calm(c, levels, budget, f) && Positive(g) && Calm(c, levels, budget, g)
    ensures RunOptional(Optimize(Group(And, [f, g])), CreationSound.Judging(c, levels, budget), ()).0
         == Verdicts((HasLeaf(f) ==> Left(c, levels, budget, f)) && (HasLeaf(g) ==> Left(c, levels, budget, g)))
  {
    var both := Group(And, [f, g]);
    OptimizedTests(c, levels, budget, both);
    assert HasLeaf(both) <==> HasLeaf(f) || HasLeaf(g) by { assert both.children[0] == f && both.children[1] == g; }
    assert Left(c, levels, budget, both) <==> (HasLeaf(f) ==> Left(c, levels, budget, f)) && (HasLeaf(g) ==> Left(c, levels, budget, g));
  }
}
