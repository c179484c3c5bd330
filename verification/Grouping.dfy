/** Grouping the rows of a query, and the counts of its group options. */
module Grouping {
  import opened Platforms

  /** A matched row, by its position among the files of the query. */
  type Row = nat

  datatype Group = Group(key: Value, rows: seq<Row>)

  // ----- what grouping keeps

  function Flatten(groups: seq<Group>): seq<Row> {
    if groups == [] then [] else groups[0].rows + Flatten(groups[1..])
  }

  /** `part` is `whole` with some rows left out. */
  predicate Subsequence(part: seq<Row>, whole: seq<Row>) {
    if part == [] then true
    else if whole == [] then false
    else if part[|part| - 1] == whole[|whole| - 1] then Subsequence(part[..|part| - 1], whole[..|whole| - 1])
    else Subsequence(part, whole[..|whole| - 1])
  }

  /** Every row is in exactly one group, and each group keeps the order of the rows. */
  predicate Partition(groups: seq<Group>, rows: seq<Row>) {
    multiset(Flatten(groups)) == multiset(rows)
    && forall g :: 0 <= g < |groups| ==> Subsequence(groups[g].rows, rows)
  }

  lemma {:induction false} FlattenAppend(a: seq<Group>, b: seq<Group>)
    ensures Flatten(a + b) == Flatten(a) + Flatten(b)
    decreases a
  {
    if a == [] { assert a + b == b; }
    else {
      assert (a + b)[1..] == a[1..] + b;
      FlattenAppend(a[1..], b);
    }
  }

  lemma {:induction false} SubsequenceMore(part: seq<Row>, whole: seq<Row>, row: Row)
    requires Subsequence(part, whole)
    ensures Subsequence(part, whole + [row]) && Subsequence(part + [row], whole + [row])
    decreases |whole|
  {
    assert (whole + [row])[..|whole|] == whole && (part + [row])[..|part|] == part;
    if part != [] && part[|part| - 1] == row { SubsequenceShorter(part, whole); }
  }

  lemma {:induction false} SubsequenceShorter(part: seq<Row>, whole: seq<Row>)
    requires Subsequence(part, whole) && part != []
    ensures Subsequence(part[..|part| - 1], whole)
    decreases |whole|
  {
    var shorter := part[..|part| - 1];
    if part[|part| - 1] == whole[|whole| - 1] {
      if shorter != [] && shorter[|shorter| - 1] == whole[|whole| - 1] { SubsequenceShorter(shorter, whole[..|whole| - 1]); }
    } else {
      SubsequenceShorter(part, whole[..|whole| - 1]);
      if shorter != [] && shorter[|shorter| - 1] == whole[|whole| - 1] { SubsequenceShorter(shorter, whole[..|whole| - 1]); }
    }
  }

  lemma {:induction false} FlattenAt(groups: seq<Group>, g: nat)
    requires g < |groups|
    ensures Flatten(groups) == Flatten(groups[..g]) + (groups[g].rows + Flatten(groups[g + 1..]))
  {
    assert groups == groups[..g] + groups[g..] && groups[g..][0] == groups[g] && groups[g..][1..] == groups[g + 1..];
    FlattenAppend(groups[..g], groups[g..]);
  }

  lemma {:induction false} FlattenUpdated(groups: seq<Group>, g: nat, grown: Group, more: seq<Row>)
    requires g < |groups| && grown.rows == groups[g].rows + more
    ensures multiset(Flatten(groups[g := grown])) == multiset(Flatten(groups)) + multiset(more)
  {
    var after := groups[g := grown];
    assert after[..g] == groups[..g] && after[g + 1..] == groups[g + 1..];
    FlattenAt(groups, g);
    FlattenAt(after, g);
  }

  /** Adding one row to group `g` of a partition, under any key. */
  lemma {:induction false} PartitionGrows(groups: seq<Group>, rows: seq<Row>, g: nat, key: Value, row: Row)
    requires Partition(groups, rows) && g < |groups|
    ensures Partition(groups[g := Group(key, groups[g].rows + [row])], rows + [row])
  {
    var after := groups[g := Group(key, groups[g].rows + [row])];
    FlattenUpdated(groups, g, after[g], [row]);
    forall k | 0 <= k < |after| ensures Subsequence(after[k].rows, rows + [row]) { SubsequenceMore(groups[k].rows, rows, row); }
  }

  lemma {:induction false} SubsequenceEmpty(rows: seq<Row>)
    ensures Subsequence([], rows)
  {
  }

  lemma {:induction false} PartitionAdds(groups: seq<Group>, rows: seq<Row>, key: Value, row: Row)
    requires Partition(groups, rows)
    ensures Partition(groups + [Group(key, [row])], rows + [row])
  {
    var after := groups + [Group(key, [row])];
    FlattenAppend(groups, [Group(key, [row])]);
    assert Flatten([Group(key, [row])]) == [row];
    forall k | 0 <= k < |after| ensures Subsequence(after[k].rows, rows + [row]) {
      if k < |groups| { SubsequenceMore(groups[k].rows, rows, row); }
      else {
        SubsequenceEmpty(rows);
        SubsequenceMore([], rows, row);
        assert [] + [row] == [row];
      }
    }
  }

  // ----- grouping without a stored order

  /** The first position whose key is equal. Equality is the engine's loose
      equality, of which nothing is assumed. */
  function FirstEqual(keys: seq<Value>, key: Value, equal: (Value, Value) -> bool): (i: nat)
    ensures i <= |keys|
    ensures i < |keys| ==> equal(keys[i], key)
    ensures forall j :: 0 <= j < i ==> !equal(keys[j], key)
  {
    if keys == [] then 0 else if equal(keys[0], key) then 0 else 1 + FirstEqual(keys[1..], key, equal)
  }

  function KeysOf(groups: seq<Group>): (keys: seq<Value>)
    ensures |keys| == |groups|
  {
    seq(|groups|, i requires 0 <= i < |groups| => groups[i].key)
  }

  /** A group has the key of its first row, its other rows have keys equal to that,
      and no row has a key equal to that of an earlier group. */
  predicate Keyed(groups: seq<Group>, keyOf: Row -> Value, equal: (Value, Value) -> bool) {
    && (forall g :: 0 <= g < |groups| ==> KeyedGroup(groups[g], keyOf, equal))
    && (forall g, h :: 0 <= g < h < |groups| ==> NoneEqual(groups[g].key, groups[h].rows, keyOf, equal))
  }

  predicate NoneEqual(key: Value, rows: seq<Row>, keyOf: Row -> Value, equal: (Value, Value) -> bool) {
    forall i :: 0 <= i < |rows| ==> !equal(key, keyOf(rows[i]))
  }

  predicate KeyedGroup(group: Group, keyOf: Row -> Value, equal: (Value, Value) -> bool) {
    && group.rows != [] && group.key == keyOf(group.rows[0])
    && forall i :: 0 < i < |group.rows| ==> equal(group.key, keyOf(group.rows[i]))
  }

  lemma {:induction false} KeyedGrows(groups: seq<Group>, g: nat, row: Row, keyOf: Row -> Value, equal: (Value, Value) -> bool)
    requires Keyed(groups, keyOf, equal) && g < |groups| && equal(groups[g].key, keyOf(row))
    requires forall h :: 0 <= h < g ==> !equal(groups[h].key, keyOf(row))
    ensures Keyed(groups[g := Group(groups[g].key, groups[g].rows + [row])], keyOf, equal)
  {
  }

  lemma {:induction false} KeyedAdds(groups: seq<Group>, row: Row, keyOf: Row -> Value, equal: (Value, Value) -> bool)
    requires Keyed(groups, keyOf, equal) && forall g :: 0 <= g < |groups| ==> !equal(groups[g].key, keyOf(row))
    ensures Keyed(groups + [Group(keyOf(row), [row])], keyOf, equal)
  {
  }

  /** A row joins the first group with an equal key, or else begins one. */
  function WithRow(groups: seq<Group>, row: Row, keyOf: Row -> Value, equal: (Value, Value) -> bool): seq<Group> {
    var g := FirstEqual(KeysOf(groups), keyOf(row), equal);
    if g < |groups| then groups[g := Group(groups[g].key, groups[g].rows + [row])]
    else groups + [Group(keyOf(row), [row])]
  }

  predicate Grouped(groups: seq<Group>, rows: seq<Row>, keyOf: Row -> Value, equal: (Value, Value) -> bool) {
    Partition(groups, rows) && Keyed(groups, keyOf, equal)
  }

  lemma {:induction false} GroupedMore(groups: seq<Group>, rows: seq<Row>, row: Row, keyOf: Row -> Value, equal: (Value, Value) -> bool)
    requires Grouped(groups, rows, keyOf, equal)
    ensures Grouped(WithRow(groups, row, keyOf, equal), rows + [row], keyOf, equal)
  {
    var g := FirstEqual(KeysOf(groups), keyOf(row), equal);
    assert forall h :: 0 <= h < |groups| ==> KeysOf(groups)[h] == groups[h].key;
    if g < |groups| {
      PartitionGrows(groups, rows, g, groups[g].key, row);
      KeyedGrows(groups, g, row, keyOf, equal);
    } else {
      PartitionAdds(groups, rows, keyOf(row), row);
      KeyedAdds(groups, row, keyOf, equal);
    }
  }

  /** The groups of the rows, one row after another. */
  function GroupsOf(rows: seq<Row>, keyOf: Row -> Value, equal: (Value, Value) -> bool): seq<Group> {
    if rows == [] then []
    else WithRow(GroupsOf(rows[..|rows| - 1], keyOf, equal), rows[|rows| - 1], keyOf, equal)
  }

  lemma {:induction false} GroupsOfMore(rows: seq<Row>, row: Row, keyOf: Row -> Value, equal: (Value, Value) -> bool)
    ensures GroupsOf(rows + [row], keyOf, equal) == WithRow(GroupsOf(rows, keyOf, equal), row, keyOf, equal)
  {
    assert (rows + [row])[..|rows|] == rows;
  }

  lemma {:induction false} LastApart(rows: seq<Row>)
    requires rows != []
    ensures rows[..|rows| - 1] + [rows[|rows| - 1]] == rows
  {
  }

  lemma {:induction false} GroupsOfGrouped(rows: seq<Row>, keyOf: Row -> Value, equal: (Value, Value) -> bool)
    ensures Grouped(GroupsOf(rows, keyOf, equal), rows, keyOf, equal)
  {
    if rows != [] {
      var before, row := rows[..|rows| - 1], rows[|rows| - 1];
      GroupsOfGrouped(before, keyOf, equal);
      GroupedMore(GroupsOf(before, keyOf, equal), before, row, keyOf, equal);
      LastApart(rows);
    }
  }

  /** One pass over the rows; every row joins the first group with an equal key. */
  method GroupRows(rows: seq<Row>, keyOf: Row -> Value, equal: (Value, Value) -> bool) returns (groups: seq<Group>)
    ensures groups == GroupsOf(rows, keyOf, equal) && Grouped(groups, rows, keyOf, equal)
  {
    groups := [];
    var n: nat := 0;
    while n < |rows|
      invariant n <= |rows| && groups == GroupsOf(rows[..n], keyOf, equal)
    {
      GroupsOfMore(rows[..n], rows[n], keyOf, equal);
      assert rows[..n + 1] == rows[..n] + [rows[n]];
      groups, n := WithRow(groups, rows[n], keyOf, equal), n + 1;
    }
    assert rows[..n] == rows;
    GroupsOfGrouped(rows, keyOf, equal);
  }

  /** Sorting the groups, by any comparison, keeps the partition. */
  lemma {:induction false} SortedGroupsPartition(groups: seq<Group>, sorted: seq<Group>, rows: seq<Row>)
    requires Partition(groups, rows) && multiset(sorted) == multiset(groups)
    ensures Partition(sorted, rows)
  {
    PermutedFlatten(groups, sorted);
    forall g | 0 <= g < |sorted| ensures Subsequence(sorted[g].rows, rows) {
      assert sorted[g] in multiset(sorted);
      assert sorted[g] in groups;
    }
  }

  lemma {:induction false} RemoveAt(b: seq<Group>, i: nat)
    requires i < |b|
    ensures multiset(b) == multiset(b[..i] + b[i + 1..]) + multiset{b[i]}
    ensures multiset(Flatten(b)) == multiset(Flatten(b[..i] + b[i + 1..])) + multiset(b[i].rows)
  {
    assert b == b[..i] + [b[i]] + b[i + 1..];
    FlattenAt(b, i);
    FlattenAppend(b[..i], b[i + 1..]);
  }

  lemma {:induction false} SameRest<T>(a: multiset<T>, b: multiset<T>, x: T)
    requires a + multiset{x} == b + multiset{x}
    ensures a == b
  {
    assert a == (a + multiset{x}) - multiset{x};
    assert b == (b + multiset{x}) - multiset{x};
  }

  lemma {:induction false} FirstApart(a: seq<Group>)
    requires a != []
    ensures multiset(a) == multiset(a[1..]) + multiset{a[0]}
    ensures multiset(Flatten(a)) == multiset(Flatten(a[1..])) + multiset(a[0].rows)
  {
    assert a == [a[0]] + a[1..];
  }

  lemma {:induction false} PermutedFlatten(a: seq<Group>, b: seq<Group>)
    requires multiset(a) == multiset(b)
    ensures multiset(Flatten(a)) == multiset(Flatten(b))
    decreases |a|
  {
    if a == [] { assert |multiset(b)| == 0; }
    else {
      FirstApart(a);
      assert a[0] in multiset(b);
      var i :| 0 <= i < |b| && b[i] == a[0];
      var rest := b[..i] + b[i + 1..];
      RemoveAt(b, i);
      SameRest(multiset(a[1..]), multiset(rest), a[0]);
      PermutedFlatten(a[1..], rest);
    }
  }

  // ----- a stored order: counts, then groups

  function Sum(counts: seq<nat>): nat { if counts == [] then 0 else counts[0] + Sum(counts[1..]) }

  lemma {:induction false} SumUpdate(counts: seq<nat>, i: nat)
    requires i < |counts|
    ensures Sum(counts[i := counts[i] + 1]) == Sum(counts) + 1
  {
    if i > 0 {
      assert counts[i := counts[i] + 1][1..] == counts[1..][i - 1 := counts[1..][i - 1] + 1];
      SumUpdate(counts[1..], i - 1);
    }
  }

  lemma {:induction false} SumAppend(a: seq<nat>, b: seq<nat>)
    ensures Sum(a + b) == Sum(a) + Sum(b)
    decreases a
  {
    if a == [] { assert a + b == b; }
    else {
      assert (a + b)[1..] == a[1..] + b;
      SumAppend(a[1..], b);
    }
  }

  /** The rows of one slot of the stored order. */
  function Slotted(rows: seq<Row>, slot: Row -> Option<nat>, k: nat): seq<Row> {
    if rows == [] then []
    else
      var last := rows[|rows| - 1];
      Slotted(rows[..|rows| - 1], slot, k) + if slot(last) == Some(k) then [last] else []
  }

  function Listed(rows: seq<Row>, slot: Row -> Option<nat>): seq<Row> {
    if rows == [] then []
    else
      var last := rows[|rows| - 1];
      Listed(rows[..|rows| - 1], slot) + if slot(last).Some? then [last] else []
  }

  /** The rows that no listed key takes. */
  function Rest(rows: seq<Row>, slot: Row -> Option<nat>): seq<Row> {
    if rows == [] then []
    else
      var last := rows[|rows| - 1];
      Rest(rows[..|rows| - 1], slot) + if slot(last).None? then [last] else []
  }

  datatype Unlisted = Unlisted(key: Value, count: nat)

  /** What `groups` are when only their rows are counted. */
  function Tally(groups: seq<Group>): (unlisted: seq<Unlisted>)
    ensures |unlisted| == |groups|
  {
    seq(|groups|, g requires 0 <= g < |groups| => Unlisted(groups[g].key, |groups[g].rows|))
  }

  function Counts(unlisted: seq<Unlisted>): (counts: seq<nat>)
    ensures |counts| == |unlisted|
  {
    seq(|unlisted|, i requires 0 <= i < |unlisted| => unlisted[i].count)
  }

  function UnlistedKeys(unlisted: seq<Unlisted>): (keys: seq<Value>)
    ensures |keys| == |unlisted|
  {
    seq(|unlisted|, i requires 0 <= i < |unlisted| => unlisted[i].key)
  }

  lemma {:induction false} CountOneMore(unlisted: seq<Unlisted>, u: nat)
    requires u < |unlisted|
    ensures Sum(Counts(unlisted[u := Unlisted(unlisted[u].key, unlisted[u].count + 1)])) == Sum(Counts(unlisted)) + 1
  {
    var counts := Counts(unlisted);
    assert Counts(unlisted[u := Unlisted(unlisted[u].key, unlisted[u].count + 1)]) == counts[u := counts[u] + 1];
    SumUpdate(counts, u);
  }

  lemma {:induction false} CountOneNew(unlisted: seq<Unlisted>, key: Value)
    ensures Sum(Counts(unlisted + [Unlisted(key, 1)])) == Sum(Counts(unlisted)) + 1
  {
    assert Counts(unlisted + [Unlisted(key, 1)]) == Counts(unlisted) + [1];
    SumAppend(Counts(unlisted), [1]);
    assert Sum([1]) == 1 by { assert [1][1..] == []; }
  }

  /** One more row under a key that no listed key takes. */
  function CountUnlisted(unlisted: seq<Unlisted>, key: Value, equal: (Value, Value) -> bool): (after: seq<Unlisted>)
    ensures Sum(Counts(after)) == Sum(Counts(unlisted)) + 1
  {
    var u := FirstEqual(UnlistedKeys(unlisted), key, equal);
    if u < |unlisted| then
      CountOneMore(unlisted, u);
      unlisted[u := Unlisted(unlisted[u].key, unlisted[u].count + 1)]
    else
      CountOneNew(unlisted, key);
      unlisted + [Unlisted(key, 1)]
  }

  lemma {:induction false} TallyMore(groups: seq<Group>, row: Row, keyOf: Row -> Value, equal: (Value, Value) -> bool)
    ensures CountUnlisted(Tally(groups), keyOf(row), equal) == Tally(WithRow(groups, row, keyOf, equal))
  {
    assert UnlistedKeys(Tally(groups)) == KeysOf(groups);
  }

  /** The options of the rows that no listed key takes: what those rows group into, counted. */
  function UnlistedOf(rows: seq<Row>, slot: Row -> Option<nat>, keyOf: Row -> Value, equal: (Value, Value) -> bool): seq<Unlisted> {
    Tally(GroupsOf(Rest(rows, slot), keyOf, equal))
  }

  lemma {:induction false} UnlistedMore(rows: seq<Row>, n: nat, slot: Row -> Option<nat>, keyOf: Row -> Value, equal: (Value, Value) -> bool)
    requires n < |rows|
    ensures slot(rows[n]).Some? ==> UnlistedOf(rows[..n + 1], slot, keyOf, equal) == UnlistedOf(rows[..n], slot, keyOf, equal)
    ensures slot(rows[n]).None? ==>
      UnlistedOf(rows[..n + 1], slot, keyOf, equal) == CountUnlisted(UnlistedOf(rows[..n], slot, keyOf, equal), keyOf(rows[n]), equal)
  {
    var rest := Rest(rows[..n], slot);
    assert rows[..n + 1][..n] == rows[..n];
    if slot(rows[n]).None? {
      assert Rest(rows[..n + 1], slot) == rest + [rows[n]];
      GroupsOfMore(rest, rows[n], keyOf, equal);
      TallyMore(GroupsOf(rest, keyOf, equal), rows[n], keyOf, equal);
    } else {
      assert Rest(rows[..n + 1], slot) == rest + [] == rest;
    }
  }

  function Zeros(n: nat): (zeros: seq<nat>)
    ensures |zeros| == n && Sum(zeros) == 0 && forall k :: 0 <= k < n ==> zeros[k] == 0
  {
    if n == 0 then [] else [0] + Zeros(n - 1)
  }

  /** One more row in the counts of the listed keys. */
  lemma {:induction false} SlottedMore(rows: seq<Row>, n: nat, slot: Row -> Option<nat>)
    requires n < |rows|
    ensures forall k: nat :: Slotted(rows[..n + 1], slot, k) == Slotted(rows[..n], slot, k) + if slot(rows[n]) == Some(k) then [rows[n]] else []
    ensures Listed(rows[..n + 1], slot) == Listed(rows[..n], slot) + if slot(rows[n]).Some? then [rows[n]] else []
  {
    assert rows[..n + 1][..n] == rows[..n];
  }

  predicate CountsSlots(counts: seq<nat>, rows: seq<Row>, slot: Row -> Option<nat>) {
    forall k :: 0 <= k < |counts| ==> counts[k] == |Slotted(rows, slot, k)|
  }

  lemma {:induction false} CountsMore(counts: seq<nat>, rows: seq<Row>, n: nat, slot: Row -> Option<nat>)
    requires n < |rows| && CountsSlots(counts, rows[..n], slot)
    ensures slot(rows[n]).None? ==> CountsSlots(counts, rows[..n + 1], slot)
    ensures slot(rows[n]).Some? && slot(rows[n]).value < |counts| ==>
      var k := slot(rows[n]).value;
      CountsSlots(counts[k := counts[k] + 1], rows[..n + 1], slot)
  {
    SlottedMore(rows, n, slot);
  }

  /** The option counts: one for each listed key, with the rows that fall under it, and
      one for each group of the rows that no listed key takes. */
  method CountOptions(rows: seq<Row>, keyOf: Row -> Value, equal: (Value, Value) -> bool, order: seq<Value>, slot: Row -> Option<nat>)
    returns (kept: seq<Row>, counts: seq<nat>, unlisted: seq<Unlisted>)
    requires forall r :: slot(r).Some? ==> slot(r).value < |order|
    ensures kept == Listed(rows, slot) && |counts| == |order|
    ensures CountsSlots(counts, rows, slot)
    ensures Sum(counts) == |kept|
    ensures Sum(counts) + Sum(Counts(unlisted)) == |rows|
    ensures unlisted == UnlistedOf(rows, slot, keyOf, equal)
  {
    kept, counts, unlisted := [], Zeros(|order|), [];
    var n: nat := 0;
    while n < |rows|
      invariant n <= |rows| && kept == Listed(rows[..n], slot) && |counts| == |order|
      invariant CountsSlots(counts, rows[..n], slot)
      invariant Sum(counts) == |kept| && |kept| + Sum(Counts(unlisted)) == n
      invariant unlisted == UnlistedOf(rows[..n], slot, keyOf, equal)
    {
      var row := rows[n];
      var at := slot(row);
      SlottedMore(rows, n, slot);
      CountsMore(counts, rows, n, slot);
      UnlistedMore(rows, n, slot, keyOf, equal);
      if at.Some? {
        SumUpdate(counts, at.value);
        counts, kept := counts[at.value := counts[at.value] + 1], kept + [row];
      } else {
        unlisted := CountUnlisted(unlisted, keyOf(row), equal);
      }
      n := n + 1;
    }
    assert rows[..n] == rows;
  }

  function EmptyGroups(order: seq<Value>): (groups: seq<Group>)
    ensures |groups| == |order| && Flatten(groups) == []
    ensures forall k :: 0 <= k < |order| ==> groups[k] == Group(order[k], [])
  {
    if order == [] then [] else [Group(order[0], [])] + EmptyGroups(order[1..])
  }

  function NonEmpty(groups: seq<Group>): seq<Group> {
    if groups == [] then []
    else (if groups[0].rows == [] then [] else [groups[0]]) + NonEmpty(groups[1..])
  }

  lemma {:induction false} NonEmptyFlat(groups: seq<Group>)
    ensures Flatten(NonEmpty(groups)) == Flatten(groups)
    ensures forall g :: g in NonEmpty(groups) <==> g in groups && g.rows != []
  {
    if groups != [] {
      NonEmptyFlat(groups[1..]);
      assert groups == [groups[0]] + groups[1..];
      if groups[0].rows != [] {
        FlattenAt(NonEmpty(groups), 0);
        assert NonEmpty(groups)[1..] == NonEmpty(groups[1..]) && NonEmpty(groups)[..0] == [];
      } else {
        assert Flatten(groups) == Flatten(groups[1..]);
        assert NonEmpty(groups) == NonEmpty(groups[1..]);
      }
    }
  }

  lemma {:induction false} EmptyPartition(groups: seq<Group>)
    requires Flatten(groups) == [] && forall k :: 0 <= k < |groups| ==> groups[k].rows == []
    ensures Partition(groups, [])
  {
    forall g | 0 <= g < |groups| ensures Subsequence(groups[g].rows, []) { SubsequenceEmpty([]); }
  }

  lemma {:induction false} NonEmptyPartition(groups: seq<Group>, rows: seq<Row>)
    requires Partition(groups, rows)
    ensures Partition(NonEmpty(groups), rows)
  {
    NonEmptyFlat(groups);
    var some := NonEmpty(groups);
    forall g | 0 <= g < |some| ensures Subsequence(some[g].rows, rows) { assert some[g] in groups; }
  }

  /** The groups of the stored order, when the first `rows` have been put in. */
  predicate Placed(groups: seq<Group>, rows: seq<Row>, keyOf: Row -> Value, slot: Row -> Option<nat>) {
    forall k: nat :: k < |groups| ==>
      groups[k].rows == Slotted(rows, slot, k) && (groups[k].rows != [] ==> groups[k].key == keyOf(groups[k].rows[0]))
  }

  lemma {:induction false} PlacedNone(groups: seq<Group>, keyOf: Row -> Value, slot: Row -> Option<nat>)
    requires forall k :: 0 <= k < |groups| ==> groups[k].rows == []
    ensures Placed(groups, [], keyOf, slot)
  {
  }

  lemma {:induction false} PartitionGrowsAt(groups: seq<Group>, rows: seq<Row>, n: nat, g: nat, key: Value)
    requires n < |rows| && g < |groups| && Partition(groups, rows[..n])
    ensures Partition(groups[g := Group(key, groups[g].rows + [rows[n]])], rows[..n + 1])
  {
    PartitionGrows(groups, rows[..n], g, key, rows[n]);
    LastApart(rows[..n + 1]);
    assert rows[..n + 1][..n] == rows[..n];
  }

  lemma {:induction false} PlacedMore(groups: seq<Group>, rows: seq<Row>, n: nat, keyOf: Row -> Value, slot: Row -> Option<nat>)
    requires n < |rows| && slot(rows[n]).Some? && slot(rows[n]).value < |groups| && Placed(groups, rows[..n], keyOf, slot)
    ensures var g := slot(rows[n]).value;
            var key := if groups[g].rows == [] then keyOf(rows[n]) else groups[g].key;
            Placed(groups[g := Group(key, groups[g].rows + [rows[n]])], rows[..n + 1], keyOf, slot)
  {
    SlottedMore(rows, n, slot);
  }

  /** Groups in the stored order; each takes the key of its first row. */
  method GroupByOrder(rows: seq<Row>, keyOf: Row -> Value, order: seq<Value>, slot: Row -> Option<nat>)
    returns (groups: seq<Group>, ghost all: seq<Group>)
    requires forall r :: slot(r).Some? ==> slot(r).value < |order|
    requires forall i :: 0 <= i < |rows| ==> slot(rows[i]).Some?
    ensures Partition(groups, rows)
    ensures |all| == |order| && Placed(all, rows, keyOf, slot) && groups == NonEmpty(all)
  {
    groups := EmptyGroups(order);
    EmptyPartition(groups);
    PlacedNone(groups, keyOf, slot);
    var n: nat := 0;
    assert rows[..0] == [];
    while n < |rows|
      invariant n <= |rows| && |groups| == |order| && Partition(groups, rows[..n]) && Placed(groups, rows[..n], keyOf, slot)
    {
      var row := rows[n];
      var g := slot(row).value;
      var key := if groups[g].rows == [] then keyOf(row) else groups[g].key;
      PlacedMore(groups, rows, n, keyOf, slot);
      PartitionGrowsAt(groups, rows, n, g, key);
      groups := groups[g := Group(key, groups[g].rows + [row])];
      n := n + 1;
    }
    assert rows[..n] == rows;
    all := groups;
    NonEmptyPartition(groups, rows);
    groups := NonEmpty(groups);
  }
}
