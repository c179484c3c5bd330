/** The properties of a note, and what a command remembers of those it touches. */
module PropertyStates {
  import opened Platforms

  datatype Property = Property(key: string, value: Value)

  /** The properties of a note in their order; the keys of a mapping are distinct. */
  type Note = seq<Property>

  predicate Distinct(note: Note) {
    forall i, j :: 0 <= i < j < |note| ==> note[i].key != note[j].key
  }

  /** `{ requestedKey, targetKey, key?, value? }`: a found key is the target key. */
  datatype PropertyState = PropertyState(requested: string, target: string, value: Option<Value>)

  /** One requested change; `None` removes the property. */
  datatype Edit = Edit(key: string, value: Option<Value>)

  // ----- reading and writing one property

  function Position(note: Note, key: string): (i: nat)
    ensures i <= |note|
    ensures i < |note| ==> note[i].key == key
    ensures forall j :: 0 <= j < i ==> note[j].key != key
  {
    if note == [] || note[0].key == key then 0 else 1 + Position(note[1..], key)
  }

  function Lookup(note: Note, key: string): Option<Value> {
    var i := Position(note, key);
    if i < |note| then Some(note[i].value) else None
  }

  /** `setProperty`: in place, or at the end. */
  function SetProperty(note: Note, key: string, value: Value): Note {
    var i := Position(note, key);
    if i < |note| then note[i := Property(key, value)] else note + [Property(key, value)]
  }

  function RemoveProperty(note: Note, key: string): Note {
    var i := Position(note, key);
    if i < |note| then note[..i] + note[i + 1..] else note
  }

  function Put(note: Note, key: string, value: Option<Value>): Note {
    if value.None? then RemoveProperty(note, key) else SetProperty(note, key, value.value)
  }

  /** The properties of other keys, in their order. */
  function Others(note: Note, keys: set<string>): Note {
    if note == [] then []
    else (if note[0].key in keys then [] else [note[0]]) + Others(note[1..], keys)
  }

  lemma {:induction false} OthersAppend(a: Note, b: Note, keys: set<string>)
    ensures Others(a + b, keys) == Others(a, keys) + Others(b, keys)
    decreases a
  {
    if a == [] { assert a + b == b; }
    else {
      assert (a + b)[1..] == a[1..] + b;
      OthersAppend(a[1..], b, keys);
    }
  }

  lemma {:induction false} PutDistinct(note: Note, key: string, value: Option<Value>)
    requires Distinct(note)
    ensures Distinct(Put(note, key, value))
  {
  }

  lemma {:induction false} OthersAround(head: Note, mid: Note, tail: Note, keys: set<string>)
    requires Others(mid, keys) == []
    ensures Others(head + mid + tail, keys) == Others(head, keys) + Others(tail, keys)
  {
    OthersAppend(head + mid, tail, keys);
    OthersAppend(head, mid, keys);
  }

  lemma {:induction false} SplitAt(note: Note, i: nat)
    requires i < |note|
    ensures note == note[..i] + [note[i]] + note[i + 1..]
    ensures note[..i] + [] + note[i + 1..] == note[..i] + note[i + 1..]
  {
  }

  lemma {:induction false} UpdateSplits(note: Note, i: nat, x: Property)
    requires i < |note|
    ensures note[i := x] == note[..i] + [x] + note[i + 1..]
  {
  }

  lemma {:induction false} PutOthers(note: Note, key: string, value: Option<Value>, keys: set<string>)
    requires key in keys
    ensures Others(Put(note, key, value), keys) == Others(note, keys)
  {
    var i := Position(note, key);
    var written := if value.None? then [] else [Property(key, value.value)];
    assert Others(written, keys) == [];
    if i < |note| {
      SplitAt(note, i);
      if value.Some? { UpdateSplits(note, i, Property(key, value.value)); }
      OthersAround(note[..i], [note[i]], note[i + 1..], keys);
      OthersAround(note[..i], written, note[i + 1..], keys);
    } else {
      OthersAppend(note, written, keys);
    }
  }

  lemma {:induction false} LookupPut(note: Note, key: string, value: Option<Value>, k: string)
    requires Distinct(note)
    ensures Lookup(Put(note, key, value), k) == if k == key then value else Lookup(note, k)
  {
    var i, at, after := Position(note, key), Position(note, k), Put(note, key, value);
    var now := Position(after, k);
    if k == key {
      if value.Some? { assert after[i].key == key; }
      else { assert forall j :: 0 <= j < |after| ==> after[j] == note[if j < i then j else j + 1]; }
    } else if at < |note| {
      var moved := if value.None? && i < at then at - 1 else at;
      assert after[moved] == note[at];
    }
  }

  // ----- what a command remembers

  function StateOf(note: Note, requested: string, target: string): PropertyState {
    PropertyState(requested, target, Lookup(note, target))
  }

  /** The key a request meets: the exact one, else the first that is the same
      ignoring case, else a new one. */
  function Target(p: Platform, note: Note, requested: string): string {
    var keys := seq(|note|, i requires 0 <= i < |note| => note[i].key);
    var found := OwnKey(p, keys, requested);
    if found.Some? then keys[found.value] else requested
  }

  function Retained(targets: seq<PropertyState>, requested: string): Option<string> {
    if targets == [] then None
    else if targets[0].requested == requested then Some(targets[0].target)
    else Retained(targets[1..], requested)
  }

  /** `propertyState`. */
  function States(p: Platform, note: Note, keys: seq<string>, targets: seq<PropertyState>): (states: seq<PropertyState>)
    ensures |states| == |keys|
  {
    seq(|keys|, i requires 0 <= i < |keys| =>
      StateOf(note, keys[i],
        if Retained(targets, keys[i]).Some? then Retained(targets, keys[i]).value else Target(p, note, keys[i])))
  }

  /** Requests are distinct, and requests of one target agree. */
  predicate Coherent(states: seq<PropertyState>) {
    && (forall i, j :: 0 <= i < j < |states| ==> states[i].requested != states[j].requested)
    && (forall i, j :: 0 <= i < |states| && 0 <= j < |states| && states[i].target == states[j].target ==>
          states[i].value == states[j].value)
  }

  function Targets(states: seq<PropertyState>): set<string> {
    set i | 0 <= i < |states| :: states[i].target
  }

  function Requests(states: seq<PropertyState>): (keys: seq<string>)
    ensures |keys| == |states|
  {
    seq(|states|, i requires 0 <= i < |states| => states[i].requested)
  }

  /** The note shows every state. */
  predicate Shows(note: Note, states: seq<PropertyState>) {
    forall i :: 0 <= i < |states| ==> Lookup(note, states[i].target) == states[i].value
  }

  lemma {:induction false} RetainedAt(states: seq<PropertyState>, i: nat)
    requires i < |states| && forall a, b :: 0 <= a < b < |states| ==> states[a].requested != states[b].requested
    ensures Retained(states, states[i].requested) == Some(states[i].target)
  {
    if i > 0 { RetainedAt(states[1..], i - 1); }
  }

  /** Reading the remembered targets again finds the remembered side exactly when
      the note shows it. */
  lemma {:induction false} StatesAgain(p: Platform, note: Note, side: seq<PropertyState>, targets: seq<PropertyState>)
    requires Coherent(targets) && SameRequests(side, targets)
    ensures States(p, note, Requests(side), targets) == side <==> Shows(note, side)
    ensures SameRequests(States(p, note, Requests(side), targets), side)
    ensures Shows(note, States(p, note, Requests(side), targets))
  {
    var now := States(p, note, Requests(side), targets);
    forall i | 0 <= i < |side|
      ensures now[i] == StateOf(note, side[i].requested, side[i].target)
    {
      RetainedAt(targets, i);
      assert Requests(side)[i] == targets[i].requested;
    }
    if Shows(note, side) {
      assert forall i :: 0 <= i < |side| ==> now[i] == side[i];
    }
  }

  /** Two sides of one command: the same requests of the same targets. */
  predicate SameRequests(a: seq<PropertyState>, b: seq<PropertyState>) {
    |a| == |b| && forall i :: 0 <= i < |a| ==> a[i].requested == b[i].requested && a[i].target == b[i].target
  }

  /** Whatever is read from a note is coherent and shown by it. */
  lemma {:induction false} StatesShown(p: Platform, note: Note, keys: seq<string>, targets: seq<PropertyState>)
    requires forall i, j :: 0 <= i < j < |keys| ==> keys[i] != keys[j]
    ensures Coherent(States(p, note, keys, targets)) && Shows(note, States(p, note, keys, targets))
  {
  }

  // ----- writing a remembered side back

  /** The loop of `applyHistory` over the desired states. */
  function Restore(note: Note, desired: seq<PropertyState>): Note
    decreases desired
  {
    if desired == [] then note
    else Restore(Put(note, desired[0].target, desired[0].value), desired[1..])
  }

  /** The value a side gives a key: that of its last state of the key. */
  function Sided(states: seq<PropertyState>, key: string, otherwise: Option<Value>): Option<Value>
    decreases states
  {
    if states == [] then otherwise
    else Sided(states[1..], key, if states[0].target == key then states[0].value else otherwise)
  }

  lemma {:induction false} RestoreLooks(note: Note, desired: seq<PropertyState>, key: string)
    requires Distinct(note)
    ensures Distinct(Restore(note, desired))
    ensures Lookup(Restore(note, desired), key) == Sided(desired, key, Lookup(note, key))
    decreases desired
  {
    if desired != [] {
      var next := Put(note, desired[0].target, desired[0].value);
      PutDistinct(note, desired[0].target, desired[0].value);
      LookupPut(note, desired[0].target, desired[0].value, key);
      RestoreLooks(next, desired[1..], key);
    }
  }

  lemma {:induction false} RestoreOthers(note: Note, desired: seq<PropertyState>, keys: set<string>)
    requires Targets(desired) <= keys
    ensures Others(Restore(note, desired), keys) == Others(note, keys)
    decreases desired
  {
    if desired != [] {
      assert desired[0].target in Targets(desired);
      PutOthers(note, desired[0].target, desired[0].value, keys);
      assert forall i :: 0 <= i < |desired| - 1 ==> desired[1..][i].target == desired[i + 1].target;
      RestoreOthers(Put(note, desired[0].target, desired[0].value), desired[1..], keys);
    }
  }

  lemma {:induction false} SidedValue(states: seq<PropertyState>, key: string, otherwise: Option<Value>)
    ensures key !in Targets(states) ==> Sided(states, key, otherwise) == otherwise
    ensures key in Targets(states) ==>
              exists i :: 0 <= i < |states| && states[i].target == key && Sided(states, key, otherwise) == states[i].value
    decreases states
  {
    if states != [] {
      var rest := states[1..];
      var next := if states[0].target == key then states[0].value else otherwise;
      SidedValue(rest, key, next);
      assert states[0].target in Targets(states);
      assert forall i :: 0 <= i < |rest| ==> rest[i] == states[i + 1] && states[i + 1].target in Targets(states);
      if key in Targets(rest) {
        var i :| 0 <= i < |rest| && rest[i].target == key && Sided(rest, key, next) == rest[i].value;
        assert states[i + 1].target == key;
      } else if states[0].target == key {
        assert Sided(states, key, otherwise) == states[0].value;
      }
    }
  }

  /** Writing a side back makes the note show it and changes nothing else. */
  lemma {:induction false} RestoreShows(note: Note, desired: seq<PropertyState>)
    requires Distinct(note) && Coherent(desired)
    ensures Distinct(Restore(note, desired)) && Shows(Restore(note, desired), desired)
    ensures forall key :: key !in Targets(desired) ==> Lookup(Restore(note, desired), key) == Lookup(note, key)
    ensures Others(Restore(note, desired), Targets(desired)) == Others(note, Targets(desired))
  {
    RestoreOthers(note, desired, Targets(desired));
    forall key ensures Lookup(Restore(note, desired), key) == Sided(desired, key, Lookup(note, key)) {
      RestoreLooks(note, desired, key);
    }
    RestoreLooks(note, desired, "");
    forall key ensures key !in Targets(desired) ==> Lookup(Restore(note, desired), key) == Lookup(note, key) {
      SidedValue(desired, key, Lookup(note, key));
    }
    forall i | 0 <= i < |desired|
      ensures Lookup(Restore(note, desired), desired[i].target) == desired[i].value
    {
      assert desired[i].target in Targets(desired);
      SidedValue(desired, desired[i].target, Lookup(note, desired[i].target));
    }
  }

  // ----- the edit itself

  /** The edits of one command, on the targets found before the first of them. */
  function Written(p: Platform, note: Note, edits: seq<Edit>, before: seq<PropertyState>): Note
    decreases edits
  {
    if edits == [] then note
    else
      var retained := Retained(before, edits[0].key);
      var target := if retained.Some? then retained.value else Target(p, note, edits[0].key);
      Written(p, Put(note, target, edits[0].value), edits[1..], before)
  }

  lemma {:induction false} RetainedSome(states: seq<PropertyState>, requested: string)
    requires requested in Requests(states)
    ensures Retained(states, requested).Some? && Retained(states, requested).value in Targets(states)
    decreases states
  {
    assert states[0].target in Targets(states);
    if states[0].requested != requested {
      var i :| 0 <= i < |states| && Requests(states)[i] == requested;
      assert states[1..][i - 1] == states[i] && Requests(states[1..])[i - 1] == requested;
      RetainedSome(states[1..], requested);
      var k :| 0 <= k < |states[1..]| && states[1..][k].target == Retained(states, requested).value;
      assert states[k + 1].target in Targets(states);
    }
  }

  lemma {:induction false} WrittenKeeps(p: Platform, note: Note, edits: seq<Edit>, before: seq<PropertyState>)
    requires Distinct(note) && forall i :: 0 <= i < |edits| ==> edits[i].key in Requests(before)
    ensures Distinct(Written(p, note, edits, before))
    ensures Others(Written(p, note, edits, before), Targets(before)) == Others(note, Targets(before))
    ensures forall key :: key !in Targets(before) ==> Lookup(Written(p, note, edits, before), key) == Lookup(note, key)
    decreases edits
  {
    if edits != [] {
      RetainedSome(before, edits[0].key);
      var target := Retained(before, edits[0].key).value;
      var next := Put(note, target, edits[0].value);
      PutDistinct(note, target, edits[0].value);
      PutOthers(note, target, edits[0].value, Targets(before));
      forall key | key !in Targets(before) ensures Lookup(next, key) == Lookup(note, key) {
        LookupPut(note, target, edits[0].value, key);
      }
      WrittenKeeps(p, next, edits[1..], before);
    }
  }

  // ----- undo and redo of one note

  /** `applyHistory` on one note: write the other side back if the note shows
      this one, or already shows the other in a retry of the same direction. */
  function Reversed(p: Platform, note: Note, expected: seq<PropertyState>, desired: seq<PropertyState>, retrying: bool): Option<Note> {
    var current := States(p, note, Requests(expected), expected);
    if current == expected || (retrying && current == desired) then Some(Restore(note, desired)) else None
  }

  predicate Sides(before: seq<PropertyState>, after: seq<PropertyState>) {
    Coherent(before) && Coherent(after) && SameRequests(before, after)
  }

  lemma {:induction false} SidesSame(before: seq<PropertyState>, after: seq<PropertyState>)
    requires Sides(before, after)
    ensures Targets(before) == Targets(after) && Requests(before) == Requests(after) && Sides(after, before)
  {
    forall i | 0 <= i < |before| ensures before[i].target in Targets(after) && after[i].target in Targets(before) {}
  }

  /** A note is reversed exactly when every touched property has its expected
      value, or when a retry finds every one as it should become. */
  lemma {:induction false} ReversedWhenExpected(p: Platform, note: Note, expected: seq<PropertyState>, desired: seq<PropertyState>, retrying: bool)
    requires Sides(expected, desired)
    ensures Reversed(p, note, expected, desired, retrying).Some?
       <==> Shows(note, expected) || (retrying && Shows(note, desired))
  {
    SidesSame(expected, desired);
    StatesAgain(p, note, expected, expected);
    StatesAgain(p, note, desired, expected);
  }

  /** The touched properties become the desired ones and all others keep their
      values and their order. */
  lemma {:induction false} ReversedKeeps(p: Platform, note: Note, expected: seq<PropertyState>, desired: seq<PropertyState>, retrying: bool)
    requires Distinct(note) && Sides(expected, desired)
    ensures var r := Reversed(p, note, expected, desired, retrying);
            r.Some? ==>
              && Distinct(r.value) && Shows(r.value, desired)
              && Others(r.value, Targets(desired)) == Others(note, Targets(desired))
              && forall key :: key !in Targets(desired) ==> Lookup(r.value, key) == Lookup(note, key)
  {
    RestoreShows(note, desired);
  }

  /** Undo after an edit, and redo after that undo, give back every property. */
  lemma {:induction false} EditUndoRedo(p: Platform, note: Note, keys: seq<string>, edits: seq<Edit>)
    requires Distinct(note)
    requires forall i, j :: 0 <= i < j < |keys| ==> keys[i] != keys[j]
    requires forall i :: 0 <= i < |edits| ==> edits[i].key in keys
    ensures var before := States(p, note, keys, []);
            var edited := Written(p, note, edits, before);
            var after := States(p, edited, keys, before);
            var undone := Reversed(p, edited, after, before, false);
            && undone.Some? && (forall key :: Lookup(undone.value, key) == Lookup(note, key))
            && var redone := Reversed(p, undone.value, before, after, false);
               redone.Some? && forall key :: Lookup(redone.value, key) == Lookup(edited, key)
  {
    var before := States(p, note, keys, []);
    StatesShown(p, note, keys, []);
    assert Requests(before) == keys;
    var edited := Written(p, note, edits, before);
    WrittenKeeps(p, note, edits, before);
    var after := States(p, edited, keys, before);
    StatesShown(p, edited, keys, before);
    forall i | 0 <= i < |keys| ensures after[i].target == before[i].target { RetainedAt(before, i); }
    SidesSame(before, after);
    ReversedWhenExpected(p, edited, after, before, false);
    ReversedKeeps(p, edited, after, before, false);
    var undone := Reversed(p, edited, after, before, false).value;
    ShownEverywhere(undone, note, before);
    ReversedWhenExpected(p, undone, before, after, false);
    ReversedKeeps(p, undone, before, after, false);
    ShownEverywhere(Reversed(p, undone, before, after, false).value, edited, after);
  }

  /** Notes that show the same states and agree elsewhere agree everywhere. */
  lemma {:induction false} ShownEverywhere(a: Note, b: Note, states: seq<PropertyState>)
    requires Shows(a, states) && Shows(b, states)
    requires forall key :: key !in Targets(states) ==> Lookup(a, key) == Lookup(b, key)
    ensures forall key :: Lookup(a, key) == Lookup(b, key)
  {
    forall key ensures Lookup(a, key) == Lookup(b, key) {
      if key in Targets(states) { var i :| 0 <= i < |states| && states[i].target == key; }
    }
  }
}
