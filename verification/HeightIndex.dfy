/** The Fenwick index of row heights, over exact real numbers. */
module HeightIndex {

  // ----- the specification: an array of heights

  /** The height of the units from `lo` up to `hi`. */
  function Span(heights: seq<real>, lo: nat, hi: nat): real
    requires lo <= hi <= |heights|
    decreases hi
  {
    if lo == hi then 0.0 else Span(heights, lo, hi - 1) + heights[hi - 1]
  }

  function Prefix(heights: seq<real>, k: nat): real
    requires k <= |heights|
  {
    Span(heights, 0, k)
  }

  predicate Positive(heights: seq<real>) { forall i :: 0 <= i < |heights| ==> heights[i] > 0.0 }

  lemma {:induction false} SpanSplit(heights: seq<real>, lo: nat, mid: nat, hi: nat)
    requires lo <= mid <= hi <= |heights|
    ensures Span(heights, lo, hi) == Span(heights, lo, mid) + Span(heights, mid, hi)
    decreases hi
  {
    if mid < hi { SpanSplit(heights, lo, mid, hi - 1); }
  }

  lemma {:induction false} SpanUpdate(heights: seq<real>, at: nat, value: real, lo: nat, hi: nat)
    requires at < |heights| && lo <= hi <= |heights|
    ensures Span(heights[at := value], lo, hi)
         == Span(heights, lo, hi) + if lo <= at < hi then value - heights[at] else 0.0
    decreases hi
  {
    if lo < hi { SpanUpdate(heights, at, value, lo, hi - 1); }
  }

  lemma {:induction false} PrefixIncreases(heights: seq<real>, i: nat, j: nat)
    requires Positive(heights) && i < j <= |heights|
    ensures Prefix(heights, i) < Prefix(heights, j)
    decreases j
  {
    if i < j - 1 { PrefixIncreases(heights, i, j - 1); }
  }

  /** `k` is the last unit that starts at or before `offset`, or the first unit. */
  ghost predicate StartsAt(heights: seq<real>, offset: real, k: nat) {
    && k < |heights|
    && (k == 0 || Prefix(heights, k) <= offset)
    && forall j: nat :: k < j < |heights| ==> Prefix(heights, j) > offset
  }

  /** Comparing an index with the found one is comparing offsets. */
  lemma {:induction false} StartsAtOrders(heights: seq<real>, offset: real, k: nat, i: nat)
    requires Positive(heights) && StartsAt(heights, offset, k) && i < |heights|
    ensures k <= i <==> i == |heights| - 1 || Prefix(heights, i + 1) > offset
    ensures i <= k <==> i == 0 || Prefix(heights, i) <= offset
  {
    if i + 1 < k { PrefixIncreases(heights, i + 1, k); }
    if 0 < i < k { PrefixIncreases(heights, i, k); }
  }

  // ----- the lowest set bit, `i & -i`

  function Low(i: nat): (b: nat)
    requires i > 0
    ensures 0 < b <= i
  {
    if i % 2 == 1 then 1 else 2 * Low(i / 2)
  }

  /** The next index whose range covers that of `i`. */
  function Parent(i: nat): nat
    requires i > 0
  {
    i + Low(i)
  }

  lemma {:induction false} ParentIsWider(i: nat)
    requires i > 0
    ensures Low(Parent(i)) >= 2 * Low(i)
  {
    if i % 2 == 0 { ParentIsWider(i / 2); assert Parent(i) == 2 * Parent(i / 2); }
  }

  /** Ranges nest: an index inside the range of `c` has its parent there too. */
  lemma {:induction false} ParentWithin(c: nat, x: nat)
    requires c > 0 && c - Low(c) < x < c
    ensures Parent(x) <= c
  {
    if x % 2 == 0 { ParentWithin(c / 2, x / 2); }
  }

  /** Between an index and its parent, ranges start no earlier than the index. */
  lemma {:induction false} StartsAfter(i: nat, x: nat)
    requires i > 0 && i < x < Parent(i)
    ensures x - Low(x) >= i
  {
    if x % 2 == 0 { StartsAfter(i / 2, x / 2); }
  }

  lemma {:induction false} LowDoubled(m: nat)
    requires m > 0
    ensures Low(2 * m) == 2 * Low(m)
  {
  }

  /** Ranges of the same parent follow one another: `e` is where that of `j` starts, or a child of `j`. */
  predicate Meets(e: nat, j: nat)
    requires j > 0
  {
    e == j - Low(j) || (e > 0 && Parent(e) == j)
  }

  lemma {:induction false} MeetsDoubled(e: nat, j: nat)
    requires j > 0 && Meets(e, j)
    ensures Meets(2 * e, 2 * j)
  {
    LowDoubled(j);
    if e > 0 { LowDoubled(e); }
  }

  lemma {:induction false} MeetsBefore(m: nat)
    requires m > 1
    ensures Meets(2 * m - 2, 2 * m)
  {
    if m % 2 == 1 { LowTwiceOdd(m); } else { LowTwiceOdd(m - 1); }
  }

  lemma {:induction false} LowTwiceOdd(m: nat)
    requires m % 2 == 1
    ensures Low(2 * m) == 2
  {
    assert Low(m) == 1;
    LowDoubled(m);
  }

  /** The range before that of a child is empty or another child's. */
  lemma {:induction false} PreviousChild(c: nat)
    requires c > 0
    ensures Meets(c - Low(c), Parent(c))
  {
    if c % 2 == 0 {
      var h := c / 2;
      PreviousChild(h);
      MeetsDoubled(h - Low(h), Parent(h));
      LowDoubled(h);
      assert c - Low(c) == 2 * (h - Low(h)) && Parent(c) == 2 * Parent(h);
    } else {
      assert Low(c) == 1;
      if c > 1 { MeetsBefore((c + 1) / 2); }
    }
  }

  // ----- the tree of range sums

  /** What `tree[j]` holds in a complete index. */
  function RangeSum(heights: seq<real>, j: nat): real
    requires 0 < j <= |heights|
  {
    Span(heights, j - Low(j), j)
  }

  /** What the build has added to `tree[j]` after the first `i` indices. */
  function ChildSum(heights: seq<real>, j: nat, i: nat): real
    requires i <= |heights|
  {
    if i == 0 then 0.0
    else ChildSum(heights, j, i - 1) + if Parent(i) == j then RangeSum(heights, i) else 0.0
  }

  lemma {:induction false} NoChild(heights: seq<real>, j: nat, start: nat, end: nat)
    requires start <= end <= |heights| && forall x :: start < x <= end ==> Parent(x) != j
    ensures ChildSum(heights, j, end) == ChildSum(heights, j, start)
    decreases end
  {
    if start < end { NoChild(heights, j, start, end - 1); }
  }

  /** Up to a child of `j` the children have covered the range of `j` without a gap. */
  lemma {:induction false} ChildrenCover(heights: seq<real>, j: nat, c: nat)
    requires 0 < j && c <= |heights| && c < j
    requires c == j - Low(j) || (c > 0 && Parent(c) == j)
    ensures c >= j - Low(j) && ChildSum(heights, j, c) == Span(heights, j - Low(j), c)
    decreases c
  {
    if c == j - Low(j) {
      forall x | 0 < x <= c ensures Parent(x) != j {
        if Parent(x) == j { ParentIsWider(x); }
      }
      NoChild(heights, j, 0, c);
    } else {
      var e := c - Low(c);
      PreviousChild(c);
      ChildrenCover(heights, j, e);
      forall x | e < x <= c - 1 ensures Parent(x) != j { ParentWithin(c, x); }
      NoChild(heights, j, e, c - 1);
      SpanSplit(heights, j - Low(j), e, c);
    }
  }

  lemma {:induction false} ChildrenComplete(heights: seq<real>, j: nat)
    requires 0 < j <= |heights|
    ensures ChildSum(heights, j, j - 1) + heights[j - 1] == RangeSum(heights, j)
  {
    if Low(j) > 1 { assert Low(j - 1) == 1; }
    ChildrenCover(heights, j, j - 1);
  }

  // ----- the descent over powers of two

  /** `bit` is a power of two and `index` a multiple of twice `bit`. */
  predicate Aligned(index: nat, bit: nat) {
    bit > 0 && index % 2 == 0 && (bit == 1 || (bit % 2 == 0 && Aligned(index / 2, bit / 2)))
  }

  lemma {:induction false} AlignedZero(bit: nat)
    requires Aligned(0, bit)
    ensures Aligned(0, 2 * bit)
  {
  }

  lemma {:induction false} AlignedLow(index: nat, bit: nat)
    requires Aligned(index, bit)
    ensures Low(index + bit) == bit
  {
    if bit > 1 { AlignedLow(index / 2, bit / 2); assert (index + bit) / 2 == index / 2 + bit / 2; }
  }

  lemma {:induction false} AlignedHalf(index: nat, bit: nat)
    requires Aligned(index, bit) && bit > 1
    ensures Aligned(index, bit / 2) && Aligned(index + bit, bit / 2)
  {
    if bit > 2 {
      AlignedHalf(index / 2, bit / 2);
      assert (index + bit) / 2 == index / 2 + bit / 2;
    }
  }

  // ----- the index object

  datatype Unit = Unit(height: real)

  lemma {:induction false} FoundStarts(heights: seq<real>, offset: real, index: nat, found: nat)
    requires Positive(heights) && 0 < |heights| && index <= |heights| && found == (if index < |heights| then index else |heights| - 1)
    requires index > 0 ==> Prefix(heights, index) <= offset
    requires index < |heights| ==> Prefix(heights, index + 1) > offset
    ensures StartsAt(heights, offset, found)
  {
    forall k | found < k < |heights| ensures Prefix(heights, k) > offset {
      if k > index + 1 { PrefixIncreases(heights, index + 1, k); }
    }
    if found < index && found > 0 { PrefixIncreases(heights, found, index); }
  }

  class Index {
    var tree: array<real>
    var values: array<real>

    ghost predicate Valid()
      reads this, tree, values
    {
      && tree != values
      && (tree.Length == values.Length + 1 || tree.Length == values.Length == 0)
      && forall j :: 0 < j < tree.Length ==> tree[j] == RangeSum(values[..], j)
    }

    constructor ()
      ensures Valid() && values[..] == [] && fresh(tree) && fresh(values)
    {
      tree, values := new real[0], new real[0];
    }

    /** Heights below one pixel count as one. */
    method Reset(units: seq<Unit>)
      modifies this
      ensures Valid() && fresh(tree) && fresh(values) && Positive(values[..])
      ensures |values[..]| == |units|
      ensures forall i :: 0 <= i < |units| ==> values[i] == if units[i].height < 1.0 then 1.0 else units[i].height
    {
      values := new real[|units|](i requires 0 <= i < |units| => if units[i].height < 1.0 then 1.0 else units[i].height);
      tree := new real[|units| + 1](_ => 0.0);
      Build(values[..]);
    }

    /** Linear build: each index passes its finished sum on to its parent. */
    method Build(ghost heights: seq<real>)
      requires tree != values && values[..] == heights && tree.Length == values.Length + 1
      requires forall j :: 0 < j < tree.Length ==> tree[j] == 0.0
      modifies tree
      ensures Valid() && values[..] == heights
    {
      var i := 0;
      while i < values.Length
        invariant i <= values.Length && values[..] == heights
        invariant forall j :: 0 < j <= i ==> tree[j] == RangeSum(heights, j)
        invariant forall j :: i < j < tree.Length ==> tree[j] == ChildSum(heights, j, i)
      {
        ChildrenComplete(heights, i + 1);
        tree[i + 1] := tree[i + 1] + values[i];
        assert tree[i + 1] == RangeSum(heights, i + 1);
        var parent := Parent(i + 1);
        if parent < tree.Length { tree[parent] := tree[parent] + tree[i + 1]; }
        i := i + 1;
      }
    }

    /** The exact sum of the first `end` heights. */
    method Sum(end: nat) returns (sum: real)
      requires Valid() && end <= values.Length
      ensures sum == Prefix(values[..], end)
    {
      sum := 0.0;
      var i: nat := end;
      while i > 0
        invariant i <= end
        invariant sum + Prefix(values[..], i) == Prefix(values[..], end)
      {
        SpanSplit(values[..], 0, i - Low(i), i);
        sum := sum + tree[i];
        i := i - Low(i);
      }
    }

    /** Change one height, unless it changes by less than half a pixel. */
    method Set(index: nat, value: real) returns (changed: bool)
      requires Valid() && index < values.Length
      modifies tree, values
      ensures Valid()
      ensures changed <==> !(-0.5 < old(values[index]) - value < 0.5)
      ensures values[..] == if changed then old(values[..])[index := value] else old(values[..])
      ensures value > 0.0 && Positive(old(values[..])) ==> Positive(values[..])
    {
      var difference := values[index] - value;
      if -0.5 < difference < 0.5 { return false; }
      var delta := value - values[index];
      ghost var before := values[..];
      values[index] := value;
      ghost var after := before[index := value];
      assert values[..] == after;
      forall j | 0 < j <= index
        ensures RangeSum(after, j) == RangeSum(before, j)
      {
        SpanUpdate(before, index, value, j - Low(j), j);
      }
      var i := index + 1;
      while i < tree.Length
        invariant index < i && i - Low(i) <= index
        invariant values[..] == after
        invariant forall j :: 0 < j < tree.Length && j < i ==> tree[j] == RangeSum(after, j)
        invariant forall j :: 0 < j < tree.Length && j >= i ==> tree[j] == RangeSum(before, j)
        decreases tree.Length - i
      {
        SpanUpdate(before, index, value, i - Low(i), i);
        tree[i] := tree[i] + delta;
        forall x | i < x < Parent(i) && x < tree.Length
          ensures RangeSum(after, x) == RangeSum(before, x)
        {
          StartsAfter(i, x);
          SpanUpdate(before, index, value, x - Low(x), x);
        }
        ParentIsWider(i);
        i := Parent(i);
      }
      return true;
    }

    /** The largest power of two below the length of the tree. */
    method TopBit() returns (bit: nat)
      ensures bit > 0 && Aligned(0, bit) && 2 * bit >= tree.Length
    {
      bit := 1;
      while bit * 2 < tree.Length
        invariant Aligned(0, bit)
        decreases tree.Length - bit
      {
        AlignedZero(bit);
        bit := bit * 2;
      }
    }

    /** The last unit that starts at or before `offset`. */
    method Find(offset: real) returns (found: nat)
      requires Valid()
      ensures values.Length == 0 ==> found == 0
      ensures Positive(values[..]) && values.Length > 0 ==> StartsAt(values[..], offset, found)
    {
      var index: nat, sum: real := 0, 0.0;
      var bit := TopBit();
      ghost var reach: nat := 2 * bit; // `index + reach` is out of range or starts past the offset
      while bit > 0
        invariant bit > 0 ==> Aligned(index, bit) && reach == 2 * bit
        invariant bit == 0 ==> reach == 1
        invariant index <= values.Length && sum == Prefix(values[..], index)
        invariant index > 0 ==> sum <= offset
        invariant index + reach > values.Length || Prefix(values[..], index + reach) > offset
        decreases bit
      {
        AlignedLow(index, bit);
        var next := index + bit;
        if bit > 1 { AlignedHalf(index, bit); }
        if next < tree.Length && sum + tree[next] <= offset {
          SpanSplit(values[..], 0, index, next);
          sum := sum + tree[next];
          index := next;
        } else if next < tree.Length {
          SpanSplit(values[..], 0, index, next);
        }
        reach := bit;
        bit := bit / 2;
      }
      found := if index < values.Length then index else if values.Length > 0 then values.Length - 1 else 0;
      if Positive(values[..]) && values.Length > 0 { FoundStarts(values[..], offset, index, found); }
    }

    /** The units to mount: exactly those that meet the viewport widened by 300
        pixels each way; the first and the last unit stand in past the ends. */
    method VisibleRange(scrollTop: real, clientHeight: real) returns (start: nat, end: nat)
      requires Valid() && Positive(values[..]) && clientHeight >= 0.0
      ensures start <= end <= values.Length
      ensures values.Length > 0 ==> start < end
      ensures var top := if scrollTop < 300.0 then 0.0 else scrollTop - 300.0;
              var bottom := scrollTop + (if clientHeight == 0.0 then 600.0 else clientHeight) + 300.0;
              forall i: nat :: i < values.Length ==>
                (start <= i < end <==>
                  && (i == 0 || Prefix(values[..], i) <= bottom)
                  && (i == values.Length - 1 || Prefix(values[..], i + 1) > top))
    {
      var top := if scrollTop < 300.0 then 0.0 else scrollTop - 300.0;
      var bottom := scrollTop + (if clientHeight == 0.0 then 600.0 else clientHeight) + 300.0;
      start := Find(top);
      if values.Length == 0 { return start, 0; }
      var last := Find(bottom);
      end := last + 1;
      forall i: nat | i < values.Length
        ensures start <= i < end <==>
                && (i == 0 || Prefix(values[..], i) <= bottom)
                && (i == values.Length - 1 || Prefix(values[..], i + 1) > top)
      {
        StartsAtOrders(values[..], top, start, i);
        StartsAtOrders(values[..], bottom, last, i);
      }
      if start > 0 {
        PrefixIncreases(values[..], 0, start);
        StartsAtOrders(values[..], bottom, last, start);
      }
    }
  }
}
