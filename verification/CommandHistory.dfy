/** Undo and redo stacks, and the vault that they reverse. */
module CommandHistory {
  import opened Platforms
  import opened PropertyStates

  datatype Direction = Undo | Redo

  function Opposite(d: Direction): Direction { if d.Undo? then Redo else Undo }

  datatype Change =
    | Edited(before: seq<PropertyState>, after: seq<PropertyState>)
    | Moved(from: string, dest: string)

  /** `ref` stands for the identity of the entry object, `file` for the durable
      identity of the note. */
  datatype Entry = Entry(ref: nat, file: nat, change: Change)

  type Command = seq<Entry>

  /** The last command of a stack is the next to be reversed. */
  datatype Stacks = Stacks(undo: seq<Command>, redo: seq<Command>)

  // ----- worlds: what the notes say, whatever the order of their properties

  type Fields = map<string, Value>
  datatype Place = Place(path: string, fields: Fields)
  type World = map<nat, Place>

  datatype File = File(path: string, note: Note)

  function FieldsOf(note: Note): Fields {
    map i | 0 <= i < |note| && Position(note, note[i].key) == i :: note[i].key := note[i].value
  }

  function View(files: map<nat, File>): World {
    map f | f in files :: Place(files[f].path, FieldsOf(files[f].note))
  }

  function Get(fields: Fields, key: string): Option<Value> {
    if key in fields then Some(fields[key]) else None
  }

  function Give(fields: Fields, states: seq<PropertyState>): Fields
    decreases states
  {
    if states == [] then fields
    else
      var s := states[0];
      Give(if s.value.Some? then fields[s.target := s.value.value] else fields - {s.target}, states[1..])
  }

  predicate Match(fields: Fields, states: seq<PropertyState>) {
    forall i :: 0 <= i < |states| ==> Get(fields, states[i].target) == states[i].value
  }

  lemma {:induction false} FieldsLookup(note: Note, key: string)
    ensures Get(FieldsOf(note), key) == Lookup(note, key)
  {
    var i := Position(note, key);
    if i < |note| { assert note[i].key in FieldsOf(note); }
    if key in FieldsOf(note) {
      var j :| 0 <= j < |note| && Position(note, note[j].key) == j && note[j].key == key;
    }
  }

  lemma {:induction false} FieldsSame(a: Fields, b: Fields)
    requires forall key :: Get(a, key) == Get(b, key)
    ensures a == b
  {
    forall key ensures key in a <==> key in b { assert Get(a, key) == Get(b, key); }
    forall key | key in a ensures a[key] == b[key] { assert Get(a, key) == Get(b, key); }
  }

  lemma {:induction false} GiveLooks(fields: Fields, states: seq<PropertyState>, key: string)
    ensures Get(Give(fields, states), key) == Sided(states, key, Get(fields, key))
    decreases states
  {
    if states != [] {
      var s := states[0];
      GiveLooks(if s.value.Some? then fields[s.target := s.value.value] else fields - {s.target}, states[1..], key);
    }
  }

  lemma {:induction false} FieldsRestore(note: Note, desired: seq<PropertyState>)
    requires Distinct(note)
    ensures FieldsOf(Restore(note, desired)) == Give(FieldsOf(note), desired)
  {
    forall key ensures Get(FieldsOf(Restore(note, desired)), key) == Get(Give(FieldsOf(note), desired), key) {
      FieldsLookup(Restore(note, desired), key);
      FieldsLookup(note, key);
      RestoreLooks(note, desired, key);
      GiveLooks(FieldsOf(note), desired, key);
    }
    FieldsSame(FieldsOf(Restore(note, desired)), Give(FieldsOf(note), desired));
  }

  lemma {:induction false} MatchShows(note: Note, states: seq<PropertyState>)
    ensures Match(FieldsOf(note), states) <==> Shows(note, states)
  {
    forall i | 0 <= i < |states| ensures Get(FieldsOf(note), states[i].target) == Lookup(note, states[i].target) {
      FieldsLookup(note, states[i].target);
    }
  }

  // ----- reversing one entry

  function Expected(e: Entry, d: Direction): seq<PropertyState>
    requires e.change.Edited?
  {
    if d.Undo? then e.change.after else e.change.before
  }

  function Desired(e: Entry, d: Direction): seq<PropertyState>
    requires e.change.Edited?
  {
    Expected(e, Opposite(d))
  }

  function Goal(e: Entry, d: Direction): string
    requires e.change.Moved?
  {
    if d.Undo? then e.change.from else e.change.dest
  }

  predicate Proper(e: Entry) {
    e.change.Edited? ==> Sides(e.change.before, e.change.after)
  }

  /** The world shows the side that the entry leaves when it goes in direction `d`. */
  predicate Ready(w: World, e: Entry, d: Direction) {
    && e.file in w
    && (match e.change
        case Edited(_, _) => Match(w[e.file].fields, Expected(e, d))
        case Moved(_, _) => w[e.file].path == Goal(e, Opposite(d)))
  }

  function Reverse(w: World, e: Entry, d: Direction): World
  {
    if e.file !in w then w
    else
      match e.change
      case Edited(_, _) => w[e.file := Place(w[e.file].path, Give(w[e.file].fields, Desired(e, d)))]
      case Moved(_, _) => w[e.file := Place(Goal(e, d), w[e.file].fields)]
  }

  lemma {:induction false} GiveMatches(fields: Fields, states: seq<PropertyState>)
    requires Coherent(states)
    ensures Match(Give(fields, states), states)
    ensures forall key :: key !in Targets(states) ==> Get(Give(fields, states), key) == Get(fields, key)
  {
    forall key ensures Get(Give(fields, states), key) == Sided(states, key, Get(fields, key)) {
      GiveLooks(fields, states, key);
      SidedValue(states, key, Get(fields, key));
    }
    forall key ensures key !in Targets(states) ==> Get(Give(fields, states), key) == Get(fields, key) {
      SidedValue(states, key, Get(fields, key));
    }
    forall i | 0 <= i < |states| ensures Get(Give(fields, states), states[i].target) == states[i].value {
      assert states[i].target in Targets(states);
      SidedValue(states, states[i].target, Get(fields, states[i].target));
    }
  }

  /** Writing states changes nothing exactly where they are so already. */
  lemma {:induction false} GiveIdle(fields: Fields, states: seq<PropertyState>)
    requires Coherent(states)
    ensures Give(fields, states) == fields <==> Match(fields, states)
  {
    GiveMatches(fields, states);
    if Match(fields, states) {
      forall key ensures Get(Give(fields, states), key) == Get(fields, key) {
        if key in Targets(states) { var i :| 0 <= i < |states| && states[i].target == key; }
      }
      FieldsSame(Give(fields, states), fields);
    }
  }

  lemma {:induction false} GiveBack(fields: Fields, here: seq<PropertyState>, there: seq<PropertyState>)
    requires Sides(here, there) && Match(fields, here)
    ensures Give(Give(fields, there), here) == fields
  {
    SidesSame(here, there);
    GiveMatches(fields, there);
    GiveMatches(Give(fields, there), here);
    var back := Give(Give(fields, there), here);
    forall key ensures Get(back, key) == Get(fields, key) {
      if key in Targets(here) { var i :| 0 <= i < |here| && here[i].target == key; }
    }
    FieldsSame(back, fields);
  }

  /** Reversing an entry and reversing it back is no change at all. */
  lemma {:induction false} ReverseBack(w: World, e: Entry, d: Direction)
    requires Proper(e) && Ready(w, e, d)
    ensures Ready(Reverse(w, e, d), e, Opposite(d))
    ensures Reverse(Reverse(w, e, d), e, Opposite(d)) == w
  {
    var back := Reverse(Reverse(w, e, d), e, Opposite(d));
    match e.change {
      case Edited(_, _) =>
        SidesSame(Expected(e, d), Desired(e, d));
        GiveMatches(w[e.file].fields, Desired(e, d));
        GiveBack(w[e.file].fields, Expected(e, d), Desired(e, d));
      case Moved(_, _) =>
    }
    assert back[e.file] == w[e.file];
  }

  // ----- reversing entries in turn

  predicate ReadyAll(w: World, es: seq<Entry>, d: Direction)
    decreases es
  {
    es == [] || (Ready(w, es[0], d) && ReadyAll(Reverse(w, es[0], d), es[1..], d))
  }

  function Reversals(w: World, es: seq<Entry>, d: Direction): World
    decreases es
  {
    if es == [] then w else Reversals(Reverse(w, es[0], d), es[1..], d)
  }

  lemma {:induction false} ReversalsAppend(w: World, a: seq<Entry>, b: seq<Entry>, d: Direction)
    ensures Reversals(w, a + b, d) == Reversals(Reversals(w, a, d), b, d)
    ensures ReadyAll(w, a + b, d) <==> ReadyAll(w, a, d) && ReadyAll(Reversals(w, a, d), b, d)
    decreases a
  {
    if a == [] { assert a + b == b; }
    else {
      assert (a + b)[0] == a[0] && (a + b)[1..] == a[1..] + b;
      ReversalsAppend(Reverse(w, a[0], d), a[1..], b, d);
    }
  }

  function Backwards(es: seq<Entry>): (r: seq<Entry>)
    ensures |r| == |es|
  {
    if es == [] then [] else Backwards(es[1..]) + [es[0]]
  }

  lemma {:induction false} BackwardsAt(es: seq<Entry>, i: nat)
    requires i < |es|
    ensures Backwards(es)[i] == es[|es| - 1 - i]
  {
    if i < |es| - 1 { BackwardsAt(es[1..], i); }
  }

  lemma {:induction false} ReversalsOne(w: World, e: Entry, d: Direction)
    ensures Reversals(w, [e], d) == Reverse(w, e, d) && (ReadyAll(w, [e], d) <==> Ready(w, e, d))
  {
    assert [e][1..] == [];
    assert Reversals(Reverse(w, e, d), [], d) == Reverse(w, e, d);
  }

  /** A run of entries is undone by undoing them in the opposite order. */
  lemma {:induction false} UndoneBackwards(w: World, es: seq<Entry>, d: Direction)
    requires ReadyAll(w, es, d) && forall i :: 0 <= i < |es| ==> Proper(es[i])
    ensures ReadyAll(Reversals(w, es, d), Backwards(es), Opposite(d))
    ensures Reversals(Reversals(w, es, d), Backwards(es), Opposite(d)) == w
    decreases es
  {
    if es != [] {
      var end, back, o := Reversals(w, es, d), Backwards(es[1..]), Opposite(d);
      UndoneBackwards(Reverse(w, es[0], d), es[1..], d);
      ReverseBack(w, es[0], d);
      ReversalsAppend(end, back, [es[0]], o);
      ReversalsOne(Reversals(end, back, o), es[0], o);
    }
  }

  // ----- the timeline

  function Flat(commands: seq<Command>): seq<Entry> {
    if commands == [] then [] else Flat(commands[..|commands| - 1]) + commands[|commands| - 1]
  }

  /** The entries of the redo stack, next first. */
  function Ahead(redo: seq<Command>): seq<Entry> {
    if redo == [] then [] else redo[|redo| - 1] + Ahead(redo[..|redo| - 1])
  }

  /** The undo stack, then the redo stack from its top: the order of execution. */
  function Timeline(h: Stacks): seq<Entry> { Flat(h.undo) + Ahead(h.redo) }

  function Source(h: Stacks, d: Direction): seq<Command> { if d.Undo? then h.undo else h.redo }

  function Shrunk(stack: seq<Command>, rest: Command): seq<Command>
    requires stack != []
  {
    stack[..|stack| - 1] + if rest == [] then [] else [rest]
  }

  function Grown(stack: seq<Command>, applied: Command): seq<Command> {
    if applied == [] then stack else stack + [applied]
  }

  /** `publishApplied`, when the first `k` entries in the order of attempt were applied. */
  function Publish(h: Stacks, d: Direction, k: nat): Stacks
    requires Source(h, d) != [] && k <= |Source(h, d)[|Source(h, d)| - 1]|
  {
    if k == 0 then h
    else
      var command := Source(h, d)[|Source(h, d)| - 1];
      var n := |command|;
      if d.Undo? then Stacks(Shrunk(h.undo, command[..n - k]), Grown(h.redo, command[n - k..]))
      else Stacks(Grown(h.undo, command[..k]), Shrunk(h.redo, command[k..]))
  }

  lemma {:induction false} FlatGrown(stack: seq<Command>, c: Command)
    ensures Flat(Grown(stack, c)) == Flat(stack) + c && Ahead(Grown(stack, c)) == c + Ahead(stack)
  {
    if c != [] { assert (stack + [c])[..|stack|] == stack; }
  }

  lemma {:induction false} FlatShrunk(stack: seq<Command>, rest: Command)
    requires stack != []
    ensures Flat(Shrunk(stack, rest)) == Flat(stack[..|stack| - 1]) + rest
    ensures Ahead(Shrunk(stack, rest)) == rest + Ahead(stack[..|stack| - 1])
  {
    var below := stack[..|stack| - 1];
    assert Shrunk(stack, rest) == Grown(below, rest);
    FlatGrown(below, rest);
  }

  lemma {:induction false} Regroup(a: seq<Entry>, b: seq<Entry>, c: seq<Entry>, d: seq<Entry>)
    ensures (a + b) + (c + d) == (a + (b + c)) + d
    ensures (a + b) + (c + d) == a + ((b + c) + d)
    ensures (a + (b + c))[..|a + (b + c)| - |c|] == a + b
    ensures ((b + c) + d)[..|b|] == b
  {
  }

  /** Undo and redo, however far they get, move the present along one timeline. */
  lemma {:induction false} TimelineFixed(h: Stacks, d: Direction, k: nat)
    requires Source(h, d) != [] && k <= |Source(h, d)[|Source(h, d)| - 1]|
    ensures Timeline(Publish(h, d, k)) == Timeline(h)
    ensures Flat(Publish(h, d, k).undo) ==
            if d.Undo? then Flat(h.undo)[..|Flat(h.undo)| - k] else Flat(h.undo) + Ahead(h.redo)[..k]
  {
    if k == 0 {
      assert Flat(h.undo)[..|Flat(h.undo)| - 0] == Flat(h.undo) && Flat(h.undo) + Ahead(h.redo)[..0] == Flat(h.undo);
    } else if d.Undo? { UndoneTimeline(h, k); } else { RedoneTimeline(h, k); }
  }

  lemma {:induction false} UndoneTimeline(h: Stacks, k: nat)
    requires h.undo != [] && 0 < k <= |h.undo[|h.undo| - 1]|
    ensures Timeline(Publish(h, Undo, k)) == Timeline(h)
    ensures Flat(Publish(h, Undo, k).undo) == Flat(h.undo)[..|Flat(h.undo)| - k]
  {
    var command, below := h.undo[|h.undo| - 1], h.undo[..|h.undo| - 1];
    var kept, applied := command[..|command| - k], command[|command| - k..];
    FlatShrunk(h.undo, kept);
    FlatGrown(h.redo, applied);
    assert command == kept + applied;
    Regroup(Flat(below), kept, applied, Ahead(h.redo));
  }

  lemma {:induction false} RedoneTimeline(h: Stacks, k: nat)
    requires h.redo != [] && 0 < k <= |h.redo[|h.redo| - 1]|
    ensures Timeline(Publish(h, Redo, k)) == Timeline(h)
    ensures Flat(Publish(h, Redo, k).undo) == Flat(h.undo) + Ahead(h.redo)[..k]
  {
    var command, below := h.redo[|h.redo| - 1], h.redo[..|h.redo| - 1];
    var applied, kept := command[..k], command[k..];
    FlatShrunk(h.redo, kept);
    FlatGrown(h.undo, applied);
    assert command == applied + kept;
    Regroup(Flat(h.undo), applied, kept, Ahead(below));
  }
}
