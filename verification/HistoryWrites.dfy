/** The first save of an edit. An edit whose save fails waits, with the entry that the
    retry records, and may be in the draft of its note. */
module HistoryWrites {
  import opened Platforms
  import opened PropertyStates
  import opened CommandHistory
  import opened HistoryReplay
  import opened HistoryCommands

  /** An edit that was begun and is not saved (`pendingPropertyHistory`). After a rename
      of its note no edit has its signature any more: it has `moved`. Whether the draft
      of the note has the edit, `drafted`, is not kept by the source and decides nothing. */
  datatype Unsaved = Unsaved(edits: seq<Edit>, ref: nat, before: seq<PropertyState>, after: seq<PropertyState>, moved: bool, drafted: bool)

  type Waiting = map<nat, Unsaved>

  /** The edits of one file, and how the host takes their save. */
  datatype Group = Group(file: nat, edits: seq<Edit>, trial: Trial)

  predicate Retries(waiting: Waiting, g: Group) {
    g.file in waiting && !waiting[g.file].moved && waiting[g.file].edits == g.edits
  }

  /** The entry that a retry of the edit records. */
  function Held(file: nat, u: Unsaved): Entry { Entry(u.ref, file, Edited(u.before, u.after)) }

  // ----- what edits write

  /** What a key holds after the edits. */
  function Given(edits: seq<Edit>, targets: seq<PropertyState>, key: string, otherwise: Option<Value>): Option<Value>
    decreases edits
  {
    if edits == [] then otherwise
    else Given(edits[1..], targets, key, if Retained(targets, edits[0].key) == Some(key) then edits[0].value else otherwise)
  }

  lemma {:induction false} WrittenLooks(p: Platform, note: Note, edits: seq<Edit>, before: seq<PropertyState>, key: string)
    requires Distinct(note) && forall i :: 0 <= i < |edits| ==> edits[i].key in Requests(before)
    ensures Lookup(Written(p, note, edits, before), key) == Given(edits, before, key, Lookup(note, key))
    decreases edits
  {
    if edits != [] {
      RetainedSome(before, edits[0].key);
      var target := Retained(before, edits[0].key).value;
      PutDistinct(note, target, edits[0].value);
      LookupPut(note, target, edits[0].value, key);
      WrittenLooks(p, Put(note, target, edits[0].value), edits[1..], before, key);
    }
  }

  /** A key that is edited does not depend on what it held. */
  lemma {:induction false} GivenAnyway(edits: seq<Edit>, targets: seq<PropertyState>, key: string, j: nat, a: Option<Value>, b: Option<Value>)
    requires j < |edits| && Retained(targets, edits[j].key) == Some(key)
    ensures Given(edits, targets, key, a) == Given(edits, targets, key, b)
    decreases edits
  {
    if Retained(targets, edits[0].key) != Some(key) { GivenAnyway(edits[1..], targets, key, j - 1, a, b); }
  }

  lemma {:induction false} RetainedAlike(a: seq<PropertyState>, b: seq<PropertyState>, requested: string)
    requires SameRequests(a, b)
    ensures Retained(a, requested) == Retained(b, requested)
    decreases a
  {
    if a != [] { RetainedAlike(a[1..], b[1..], requested); }
  }

  lemma {:induction false} GivenAlike(edits: seq<Edit>, a: seq<PropertyState>, b: seq<PropertyState>, key: string, otherwise: Option<Value>)
    requires SameRequests(a, b)
    ensures Given(edits, a, key, otherwise) == Given(edits, b, key, otherwise)
    decreases edits
  {
    if edits != [] {
      RetainedAlike(a, b, edits[0].key);
      GivenAlike(edits[1..], a, b, key, if Retained(a, edits[0].key) == Some(key) then edits[0].value else otherwise);
    }
  }

  lemma {:induction false} KeyEdited(edits: seq<Edit>, key: string) returns (j: nat)
    requires key in Keys(edits)
    ensures j < |edits| && edits[j].key == key
  {
    var n := |edits| - 1;
    if edits[n].key == key { j := n; } else { j := KeyEdited(edits[..n], key); }
  }

  /** `after` is what the edits write, wherever they are written. */
  predicate Settles(edits: seq<Edit>, after: seq<PropertyState>) {
    && Requests(after) == Keys(edits)
    && forall i :: 0 <= i < |after| ==> Given(edits, after, after[i].target, None) == after[i].value
  }

  lemma {:induction false} TargetEdited(edits: seq<Edit>, states: seq<PropertyState>, i: nat) returns (j: nat)
    requires Requests(states) == Keys(edits) && i < |states| && Coherent(states)
    ensures j < |edits| && Retained(states, edits[j].key) == Some(states[i].target)
  {
    assert Requests(states)[i] == states[i].requested;
    j := KeyEdited(edits, states[i].requested);
    RetainedAt(states, i);
  }

  lemma {:induction false} KeysRequested(edits: seq<Edit>, states: seq<PropertyState>)
    requires Requests(states) == Keys(edits)
    ensures forall i :: 0 <= i < |edits| ==> edits[i].key in Requests(states)
  {
  }

  /** What an edit remembers as after is what its edits write. */
  lemma {:induction false} WriteSettles(p: Platform, note: Note, edits: seq<Edit>, before: seq<PropertyState>, after: seq<PropertyState>)
    requires Distinct(note) && Requests(before) == Keys(edits) && Sides(before, after) && Shows(Written(p, note, edits, before), after)
    ensures Settles(edits, after)
  {
    SidesSame(before, after);
    KeysRequested(edits, before);
    forall i | 0 <= i < |after| ensures Given(edits, after, after[i].target, None) == after[i].value {
      var key := after[i].target;
      var j := TargetEdited(edits, after, i);
      WrittenLooks(p, note, edits, before, key);
      GivenAlike(edits, before, after, key, Lookup(note, key));
      GivenAnyway(edits, after, key, j, Lookup(note, key), None);
    }
  }

  /** Writing again what the note shows changes no property. */
  lemma {:induction false} WrittenAgain(p: Platform, note: Note, edits: seq<Edit>, after: seq<PropertyState>)
    requires Distinct(note) && Coherent(after) && Settles(edits, after) && Shows(note, after)
    ensures var next := Written(p, note, edits, after);
            Distinct(next) && FieldsOf(next) == FieldsOf(note) && Shows(next, after)
  {
    var next := Written(p, note, edits, after);
    KeysRequested(edits, after);
    WrittenKeeps(p, note, edits, after);
    forall key ensures Lookup(next, key) == Lookup(note, key) {
      if key in Targets(after) {
        var i :| 0 <= i < |after| && after[i].target == key;
        var j := TargetEdited(edits, after, i);
        WrittenLooks(p, note, edits, after, key);
        GivenAnyway(edits, after, key, j, Lookup(note, key), None);
      }
    }
    SameLookups(next, note);
  }

  // ----- taking an edit out of a draft

  /** The states before, of the properties that the edit changed. */
  function Changes(before: seq<PropertyState>, after: seq<PropertyState>): seq<PropertyState> {
    if before == [] || after == [] then []
    else (if before[0].value != after[0].value then [before[0]] else []) + Changes(before[1..], after[1..])
  }

  predicate Changed(before: seq<PropertyState>, after: seq<PropertyState>, key: string)
    requires |before| == |after|
  {
    exists i :: 0 <= i < |before| && before[i].target == key && before[i].value != after[i].value
  }

  lemma {:induction false} ChangesLook(before: seq<PropertyState>, after: seq<PropertyState>, key: string, otherwise: Option<Value>)
    requires Sides(before, after)
    ensures !Changed(before, after, key) ==> Sided(Changes(before, after), key, otherwise) == otherwise
    ensures forall i :: 0 <= i < |before| && before[i].target == key && before[i].value != after[i].value ==>
              Sided(Changes(before, after), key, otherwise) == before[i].value
    decreases before
  {
    if before != [] {
      var b, a := before[1..], after[1..];
      var hit := before[0].value != after[0].value;
      var next := if hit && before[0].target == key then before[0].value else otherwise;
      TailSides(before, after);
      ChangesLook(b, a, key, next);
      assert Changes(before, after) == (if hit then [before[0]] else []) + Changes(b, a);
      if hit {
        assert Changes(before, after)[1..] == Changes(b, a);
        assert Sided(Changes(before, after), key, otherwise) == Sided(Changes(b, a), key, next);
      } else {
        assert Changes(before, after) == Changes(b, a);
      }
      TailChanged(before, after, key);
      if !Changed(b, a, key) { assert Sided(Changes(before, after), key, otherwise) == next; }
      else {
        var j :| 0 <= j < |b| && b[j].target == key && b[j].value != a[j].value;
        assert b[j] == before[j + 1] && a[j] == after[j + 1];
      }
    }
  }

  lemma {:induction false} TailSides(before: seq<PropertyState>, after: seq<PropertyState>)
    requires Sides(before, after) && before != []
    ensures Sides(before[1..], after[1..])
  {
  }

  lemma {:induction false} TailChanged(before: seq<PropertyState>, after: seq<PropertyState>, key: string)
    requires |before| == |after| > 0
    ensures Changed(before, after, key) <==>
              (before[0].target == key && before[0].value != after[0].value) || Changed(before[1..], after[1..], key)
  {
    var b, a := before[1..], after[1..];
    if Changed(b, a, key) {
      var j :| 0 <= j < |b| && b[j].target == key && b[j].value != a[j].value;
      assert before[j + 1].target == key;
    }
    if Changed(before, after, key) {
      var i :| 0 <= i < |before| && before[i].target == key && before[i].value != after[i].value;
      if i > 0 { assert b[i - 1].target == key; }
    }
  }

  function TakenFields(fields: Fields, u: Unsaved): Fields {
    if u.drafted then Give(fields, Changes(u.before, u.after)) else fields
  }

  lemma {:induction false} ChangesGive(fields: Fields, before: seq<PropertyState>, after: seq<PropertyState>, key: string)
    requires Sides(before, after)
    ensures !Changed(before, after, key) ==> Get(Give(fields, Changes(before, after)), key) == Get(fields, key)
    ensures forall i :: 0 <= i < |before| && before[i].target == key ==>
              Get(Give(fields, Changes(before, after)), key) ==
              if before[i].value != after[i].value then before[i].value else Get(fields, key)
  {
    GiveLooks(fields, Changes(before, after), key);
    ChangesLook(before, after, key, Get(fields, key));
    forall i | 0 <= i < |before| && before[i].target == key && before[i].value == after[i].value ensures !Changed(before, after, key) {
      assert before[i].target == after[i].target;
    }
  }

  /** Carrying out an edit and taking it out again is no change. */
  lemma {:induction false} TakenBack(fields: Fields, before: seq<PropertyState>, after: seq<PropertyState>)
    requires Sides(before, after) && Match(fields, before)
    ensures Give(Give(fields, after), Changes(before, after)) == fields
  {
    var there := Give(fields, after);
    var back := Give(there, Changes(before, after));
    GiveMatches(fields, after);
    SidesSame(before, after);
    forall key ensures Get(back, key) == Get(fields, key) {
      ChangesGive(there, before, after, key);
      if key in Targets(after) { var i :| 0 <= i < |after| && after[i].target == key; assert before[i].target == key; }
      else { Unchanged(before, after, key); }
    }
    FieldsSame(back, fields);
  }

  lemma {:induction false} Unchanged(before: seq<PropertyState>, after: seq<PropertyState>, key: string)
    requires |before| == |after| && key !in Targets(before)
    ensures !Changed(before, after, key)
  {
  }

  /** Taking an edit out of the fields that show it, and carrying it out, is no change. */
  lemma {:induction false} TakenForth(fields: Fields, before: seq<PropertyState>, after: seq<PropertyState>)
    requires Sides(before, after) && Match(fields, after)
    ensures var taken := Give(fields, Changes(before, after)); Match(taken, before) && Give(taken, after) == fields
  {
    var taken := Give(fields, Changes(before, after));
    SidesSame(before, after);
    GiveMatches(taken, after);
    forall key ensures Get(Give(taken, after), key) == Get(fields, key) {
      ChangesGive(fields, before, after, key);
      if key in Targets(after) { var i :| 0 <= i < |after| && after[i].target == key; }
      else { Unchanged(before, after, key); }
    }
    FieldsSame(Give(taken, after), fields);
    forall i | 0 <= i < |before| ensures Get(taken, before[i].target) == before[i].value {
      ChangesGive(fields, before, after, before[i].target);
      assert before[i].target == after[i].target;
    }
  }

  lemma {:induction false} NothingTaken(fields: Fields, states: seq<PropertyState>)
    ensures Give(fields, Changes(states, states)) == fields
  {
    NoChanges(states);
  }

  lemma {:induction false} NoChanges(states: seq<PropertyState>)
    ensures Changes(states, states) == []
  {
    if states != [] { NoChanges(states[1..]); }
  }

  // ----- writing one file

  datatype One = One(files: Files, waiting: Waiting, entries: Command, saved: bool)

  /** What the retry of a waiting edit reads its targets from. */
  function Known(waiting: Waiting, g: Group): seq<PropertyState> {
    if Retries(waiting, g) then waiting[g.file].after else []
  }

  /** The edit of a note, first or again: what waits or is recorded afterwards. */
  datatype Drawn = Drawn(next: Note, u: Unsaved, again: bool)

  function Draw(p: Platform, note: Note, waiting: Waiting, g: Group, ref: nat): Drawn {
    var before := States(p, note, Keys(g.edits), Known(waiting, g));
    var next := Written(p, note, g.edits, before);
    var again := Retries(waiting, g) && before == waiting[g.file].after;
    Drawn(next,
          if again then waiting[g.file] else Unsaved(g.edits, ref, before, States(p, next, Keys(g.edits), before), false, false),
          again)
  }

  /** How the host takes the written note, when `u` is what waits or is recorded. */
  function Taking(files: Files, waiting: Waiting, g: Group, next: Note, u: Unsaved): One
    requires g.file in files
  {
    var written := files[g.file := File(files[g.file].path, next)];
    match g.trial
    case Saved => One(written, waiting - {g.file}, if u.before == u.after then [] else [Held(g.file, u)], true)
    case Drafted => One(written, waiting[g.file := u.(drafted := true)], [], false)
    case Refused(noted) => One(files, if noted then waiting[g.file := u] else waiting, [], false)
    case Committed => One(files, waiting, [], false)
  }

  /** The file is there, and no other edit of it waits. */
  predicate Admits(files: Files, waiting: Waiting, g: Group) { g.file in files && (g.file in waiting ==> Retries(waiting, g)) }

  /** One turn of the loop of `writeProperties`. Another edit of the file is refused while
      one waits. A retry that finds what it wrote keeps what it remembers as before. */
  function WriteOne(p: Platform, files: Files, waiting: Waiting, g: Group, ref: nat): One {
    if !Admits(files, waiting, g) then One(files, waiting, [], false)
    else
      var d := Draw(p, files[g.file].note, waiting, g, ref);
      Taking(files, waiting, g, d.next, d.u)
  }

  /** What every waiting edit is. */
  predicate IsWaiting(u: Unsaved) { Sides(u.before, u.after) && Settles(u.edits, u.after) }

  predicate GoodWaiting(files: Files, waiting: Waiting) {
    GoodFiles(files) && forall f :: f in waiting ==> f in files && IsWaiting(waiting[f])
  }

  /** The note shows a waiting edit exactly when its draft has it, or the edit changes nothing. */
  predicate TruthfulAt(note: Note, u: Unsaved) { u.before != u.after ==> (u.drafted <==> Shows(note, u.after)) }

  predicate Truthful(files: Files, waiting: Waiting) {
    forall f :: f in waiting && f in files ==> TruthfulAt(files[f].note, waiting[f])
  }

  /** The notes as they are without the waiting edits in their drafts. */
  function Taken(files: Files, waiting: Waiting): Files {
    map f | f in files :: if f in waiting && waiting[f].drafted
                          then File(files[f].path, Restore(files[f].note, Changes(waiting[f].before, waiting[f].after)))
                          else files[f]
  }

  function TakenAt(fields: Fields, waiting: Waiting, f: nat): Fields {
    if f in waiting then TakenFields(fields, waiting[f]) else fields
  }

  lemma {:induction false} TakenView(files: Files, waiting: Waiting)
    requires GoodFiles(files)
    ensures GoodFiles(Taken(files, waiting)) && Taken(files, waiting).Keys == files.Keys
    ensures forall f :: f in files ==> View(Taken(files, waiting))[f] == Place(files[f].path, TakenAt(FieldsOf(files[f].note), waiting, f))
  {
    forall f | f in files
      ensures Distinct(Taken(files, waiting)[f].note)
      ensures FieldsOf(Taken(files, waiting)[f].note) == TakenAt(FieldsOf(files[f].note), waiting, f)
    {
      if f in waiting && waiting[f].drafted {
        FieldsRestore(files[f].note, Changes(waiting[f].before, waiting[f].after));
        RestoreLooks(files[f].note, Changes(waiting[f].before, waiting[f].after), "");
      }
    }
  }

  // ----- one file

  lemma {:induction false} FirstPerforms(p: Platform, note: Note, waiting: Waiting, g: Group, ref: nat)
    requires Distinct(note) && !Draw(p, note, waiting, g, ref).again
    ensures var d := Draw(p, note, waiting, g, ref); Distinct(d.next) && IsWaiting(d.u) && Performed(note, d.next, d.u.before, d.u.after)
  {
    var before := States(p, note, Keys(g.edits), Known(waiting, g));
    var d := Draw(p, note, waiting, g, ref);
    EditPerforms(p, note, g.edits, Known(waiting, g), before, d.next);
    RequestsOf(p, note, Keys(g.edits), Known(waiting, g));
    WriteSettles(p, note, g.edits, before, d.u.after);
  }

  lemma {:induction false} FirstDraws(p: Platform, note: Note, waiting: Waiting, g: Group, ref: nat)
    requires Distinct(note) && (g.file in waiting ==> Retries(waiting, g) && IsWaiting(waiting[g.file]) && TruthfulAt(note, waiting[g.file]))
    requires !Draw(p, note, waiting, g, ref).again
    ensures var d := Draw(p, note, waiting, g, ref);
            && Distinct(d.next) && IsWaiting(d.u) && Performed(note, d.next, d.u.before, d.u.after)
            && TakenAt(FieldsOf(note), waiting, g.file) == FieldsOf(note)
  {
    FirstPerforms(p, note, waiting, g, ref);
    if g.file in waiting {
      var u := waiting[g.file];
      FoundAgain(p, note, g.edits, u);
      if u.before == u.after { NothingTaken(FieldsOf(note), u.after); }
    }
  }

  lemma {:induction false} RequestsOf(p: Platform, note: Note, keys: seq<string>, targets: seq<PropertyState>)
    ensures Requests(States(p, note, keys, targets)) == keys
  {
  }

  /** A retry finds what it wrote exactly when the note shows it. */
  lemma {:induction false} FoundAgain(p: Platform, note: Note, edits: seq<Edit>, u: Unsaved)
    requires IsWaiting(u) && u.edits == edits
    ensures States(p, note, Keys(edits), u.after) == u.after <==> Shows(note, u.after)
  {
    StatesAgain(p, note, u.after, u.after);
  }

  lemma {:induction false} AgainDraws(p: Platform, note: Note, waiting: Waiting, g: Group, ref: nat)
    requires Distinct(note) && (g.file in waiting ==> Retries(waiting, g) && IsWaiting(waiting[g.file]))
    requires Draw(p, note, waiting, g, ref).again
    ensures var d := Draw(p, note, waiting, g, ref);
            && d.u == waiting[g.file] && Shows(note, d.u.after)
            && Distinct(d.next) && FieldsOf(d.next) == FieldsOf(note) && Shows(d.next, d.u.after)
  {
    FoundAgain(p, note, g.edits, waiting[g.file]);
    WrittenAgain(p, note, g.edits, waiting[g.file].after);
  }

  predicate Drawable(note: Note, waiting: Waiting, g: Group) {
    Distinct(note) && (g.file in waiting ==> Retries(waiting, g) && IsWaiting(waiting[g.file]) && TruthfulAt(note, waiting[g.file]))
  }

  /** What is drawn carries the note without its waiting edit to the written note. */
  lemma {:induction false} DrawsEntry(p: Platform, note: Note, waiting: Waiting, g: Group, ref: nat)
    requires Drawable(note, waiting, g)
    ensures var d, settled := Draw(p, note, waiting, g, ref), TakenAt(FieldsOf(note), waiting, g.file);
            && Distinct(d.next) && IsWaiting(d.u)
            && Match(settled, d.u.before) && Give(settled, d.u.after) == FieldsOf(d.next)
            && (d.u.before == d.u.after ==> FieldsOf(d.next) == settled)
  {
    var d := Draw(p, note, waiting, g, ref);
    if d.again {
      AgainDraws(p, note, waiting, g, ref);
      MatchShows(note, d.u.after);
      if d.u.before == d.u.after { NothingTaken(FieldsOf(note), d.u.after); GiveIdle(FieldsOf(note), d.u.after); }
      else { TakenForth(FieldsOf(note), d.u.before, d.u.after); }
    } else {
      FirstDraws(p, note, waiting, g, ref);
      PerformedFields(note, d.next, d.u.before, d.u.after);
    }
  }

  lemma {:induction false} ShowsBoth(note: Note, before: seq<PropertyState>, after: seq<PropertyState>)
    requires SameRequests(before, after) && Shows(note, before) && Shows(note, after)
    ensures before == after
  {
    forall i | 0 <= i < |before| ensures before[i] == after[i] { assert before[i].target == after[i].target; }
  }

  /** Drafted or only noted, what is drawn leaves the note as it was but for itself. */
  lemma {:induction false} DrawsDraft(p: Platform, note: Note, waiting: Waiting, g: Group, ref: nat)
    requires Drawable(note, waiting, g)
    ensures var d, settled := Draw(p, note, waiting, g, ref), TakenAt(FieldsOf(note), waiting, g.file);
            && TakenFields(FieldsOf(d.next), d.u.(drafted := true)) == settled && TruthfulAt(d.next, d.u.(drafted := true))
            && TakenFields(FieldsOf(note), d.u) == settled && TruthfulAt(note, d.u)
  {
    var d := Draw(p, note, waiting, g, ref);
    if d.again {
      AgainDraws(p, note, waiting, g, ref);
      if d.u.before == d.u.after { NothingTaken(FieldsOf(note), d.u.after); }
    } else {
      FirstDraws(p, note, waiting, g, ref);
      PerformedFields(note, d.next, d.u.before, d.u.after);
      TakenBack(FieldsOf(note), d.u.before, d.u.after);
      if Shows(note, d.u.after) { ShowsBoth(note, d.u.before, d.u.after); }
    }
  }

  // ----- one file among the others

  predicate AlikeBut(a: Waiting, b: Waiting, file: nat) { a - {file} == b - {file} }

  lemma {:induction false} Alike(a: Waiting, b: Waiting, file: nat, f: nat)
    requires AlikeBut(a, b, file) && f != file
    ensures (f in a <==> f in b) && (f in a ==> a[f] == b[f])
  {
    assert f in a <==> f in a - {file};
    assert f in b <==> f in b - {file};
    if f in a { assert (a - {file})[f] == a[f] && (b - {file})[f] == b[f]; }
  }

  /** One note and what waits for it are replaced. */
  lemma {:induction false} ReplacedGood(files: Files, waiting: Waiting, file: nat, next: Note, waiting': Waiting)
    requires GoodWaiting(files, waiting) && Truthful(files, waiting) && file in files && Distinct(next) && AlikeBut(waiting', waiting, file)
    requires file in waiting' ==> IsWaiting(waiting'[file]) && TruthfulAt(next, waiting'[file])
    ensures var files' := files[file := File(files[file].path, next)]; GoodWaiting(files', waiting') && Truthful(files', waiting')
  {
    var files' := files[file := File(files[file].path, next)];
    forall f | f in waiting' ensures f in files' && IsWaiting(waiting'[f]) && TruthfulAt(files'[f].note, waiting'[f]) {
      if f != file { Alike(waiting', waiting, file, f); }
    }
  }

  /** What the notes say without the waiting edits in their drafts. */
  predicate Without(files: Files, waiting: Waiting, w: World) {
    w.Keys == files.Keys && forall f :: f in files ==> w[f] == Place(files[f].path, TakenAt(FieldsOf(files[f].note), waiting, f))
  }

  lemma {:induction false} ReplacedWorld(files: Files, waiting: Waiting, file: nat, next: Note, waiting': Waiting, was: World, now: World)
    requires file in files && AlikeBut(waiting', waiting, file)
    requires Without(files, waiting, was) && Without(files[file := File(files[file].path, next)], waiting', now)
    ensures now == was[file := Place(files[file].path, TakenAt(FieldsOf(next), waiting', file))]
  {
    var other := was[file := Place(files[file].path, TakenAt(FieldsOf(next), waiting', file))];
    forall f | f in files ensures now[f] == other[f] { if f != file { Alike(waiting', waiting, file, f); } }
    assert now.Keys == other.Keys;
  }

  lemma {:induction false} Replaced(files: Files, waiting: Waiting, file: nat, next: Note, waiting': Waiting)
    requires GoodFiles(files) && file in files && Distinct(next) && AlikeBut(waiting', waiting, file)
    ensures var files', was := files[file := File(files[file].path, next)], View(Taken(files, waiting));
            && file in was && was[file] == Place(files[file].path, TakenAt(FieldsOf(files[file].note), waiting, file))
            && View(Taken(files', waiting')) == was[file := Place(files[file].path, TakenAt(FieldsOf(next), waiting', file))]
  {
    var files', was := files[file := File(files[file].path, next)], View(Taken(files, waiting));
    TakenWorld(files, waiting);
    TakenWorld(files', waiting');
    ReplacedWorld(files, waiting, file, next, waiting', was, View(Taken(files', waiting')));
  }

  lemma {:induction false} TakenWorld(files: Files, waiting: Waiting)
    requires GoodFiles(files)
    ensures Without(files, waiting, View(Taken(files, waiting)))
  {
    TakenView(files, waiting);
  }

  lemma {:induction false} SetAlike(waiting: Waiting, file: nat, u: Unsaved)
    ensures AlikeBut(waiting[file := u], waiting, file) && AlikeBut(waiting - {file}, waiting, file)
  {
  }

  lemma {:induction false} SetSame(w: World, file: nat, place: Place)
    requires file in w && w[file] == place
    ensures w[file := place] == w
  {
  }

  lemma {:induction false} RenamedWorld(files: Files, waiting: Waiting, file: nat, dest: string, was: World, now: World)
    requires file in files && Without(files, waiting, was) && Without(files[file := File(dest, files[file].note)], waiting, now)
    ensures now == was[file := Place(dest, was[file].fields)]
  {
    var other := was[file := Place(dest, was[file].fields)];
    assert now.Keys == other.Keys;
  }

  lemma {:induction false} RenamedView(files: Files, waiting: Waiting, file: nat, dest: string)
    requires GoodFiles(files) && file in files
    ensures var was, now := View(Taken(files, waiting)), View(Taken(files[file := File(dest, files[file].note)], waiting));
            file in was && now == was[file := Place(dest, was[file].fields)]
  {
    var files' := files[file := File(dest, files[file].note)];
    TakenWorld(files, waiting);
    TakenWorld(files', waiting);
    RenamedWorld(files, waiting, file, dest, View(Taken(files, waiting)), View(Taken(files', waiting)));
  }

  lemma {:induction false} CarriesNone(w: World)
    ensures Carries(w, [], w)
  {
  }

  lemma {:induction false} CarriesOne(was: World, e: Entry, now: World)
    requires Proper(e) && Ready(was, e, Redo) && now == Reverse(was, e, Redo)
    ensures Carries(was, [e], now)
  {
    CarriesNone(was);
    CarriesOn(was, [], was, e, now);
    assert [] + [e] == [e];
  }

  /** A saved write: what waited is carried out as the entry says. */
  lemma {:induction false} SavedCarries(files: Files, waiting: Waiting, file: nat, next: Note, u: Unsaved)
    requires GoodWaiting(files, waiting) && Truthful(files, waiting) && file in files && Distinct(next) && IsWaiting(u)
    requires var settled := TakenAt(FieldsOf(files[file].note), waiting, file);
             Match(settled, u.before) && Give(settled, u.after) == FieldsOf(next) && (u.before == u.after ==> FieldsOf(next) == settled)
    ensures var files', waiting' := files[file := File(files[file].path, next)], waiting - {file};
            && GoodWaiting(files', waiting') && Truthful(files', waiting')
            && Carries(View(Taken(files, waiting)), if u.before == u.after then [] else [Held(file, u)], View(Taken(files', waiting')))
  {
    var files', waiting', was := files[file := File(files[file].path, next)], waiting - {file}, View(Taken(files, waiting));
    SetAlike(waiting, file, u);
    ReplacedGood(files, waiting, file, next, waiting');
    Replaced(files, waiting, file, next, waiting');
    if u.before == u.after {
      assert View(Taken(files', waiting')) == was;
      CarriesNone(was);
    } else { CarriesOne(was, Held(file, u), View(Taken(files', waiting'))); }
  }

  lemma {:induction false} UnsavedStays(files: Files, waiting: Waiting, file: nat, next: Note, u: Unsaved)
    requires GoodWaiting(files, waiting) && Truthful(files, waiting) && file in files && Distinct(next) && IsWaiting(u) && TruthfulAt(next, u)
    requires TakenFields(FieldsOf(next), u) == TakenAt(FieldsOf(files[file].note), waiting, file)
    ensures var files', waiting' := files[file := File(files[file].path, next)], waiting[file := u];
            && GoodWaiting(files', waiting') && Truthful(files', waiting')
            && View(Taken(files', waiting')) == View(Taken(files, waiting))
  {
    SetAlike(waiting, file, u);
    ReplacedGood(files, waiting, file, next, waiting[file := u]);
    Replaced(files, waiting, file, next, waiting[file := u]);
    SetSame(View(Taken(files, waiting)), file, Place(files[file].path, TakenFields(FieldsOf(next), u)));
  }

  lemma {:induction false} SameFile(files: Files, file: nat)
    requires file in files
    ensures files[file := File(files[file].path, files[file].note)] == files
  {
  }

  lemma {:induction false} AdmittedSettles(p: Platform, files: Files, waiting: Waiting, g: Group, ref: nat)
    requires GoodWaiting(files, waiting) && Truthful(files, waiting) && Admits(files, waiting, g)
    ensures var r := WriteOne(p, files, waiting, g, ref);
            && GoodWaiting(r.files, r.waiting) && Truthful(r.files, r.waiting)
            && Carries(View(Taken(files, waiting)), r.entries, View(Taken(r.files, r.waiting)))
  {
    var d := Draw(p, files[g.file].note, waiting, g, ref);
    DrawsEntry(p, files[g.file].note, waiting, g, ref);
    DrawsDraft(p, files[g.file].note, waiting, g, ref);
    CarriesNone(View(Taken(files, waiting)));
    match g.trial
    case Saved => SavedCarries(files, waiting, g.file, d.next, d.u);
    case Drafted => UnsavedStays(files, waiting, g.file, d.next, d.u.(drafted := true));
    case Refused(_) => SameFile(files, g.file); UnsavedStays(files, waiting, g.file, files[g.file].note, d.u);
    case Committed =>
  }

  /** One turn of the loop: without the edits that wait, the notes go through the recorded
      entry, and through nothing when none is recorded. */
  lemma {:induction false} WriteOneSettles(p: Platform, files: Files, waiting: Waiting, g: Group, ref: nat)
    requires GoodWaiting(files, waiting) && Truthful(files, waiting)
    ensures var r := WriteOne(p, files, waiting, g, ref);
            && GoodWaiting(r.files, r.waiting) && Truthful(r.files, r.waiting)
            && Carries(View(Taken(files, waiting)), r.entries, View(Taken(r.files, r.waiting)))
  {
    if Admits(files, waiting, g) { AdmittedSettles(p, files, waiting, g, ref); } else { CarriesNone(View(Taken(files, waiting))); }
  }

  // ----- the files of one command

  datatype Wrote = Wrote(files: Files, waiting: Waiting, entries: Command, failed: bool)

  /** `writeProperties`: the groups are saved in turn; the first that fails ends it. */
  function WriteAll(p: Platform, files: Files, waiting: Waiting, groups: seq<Group>, ref: nat): Wrote
    decreases groups
  {
    if groups == [] then Wrote(files, waiting, [], false)
    else
      var one := WriteOne(p, files, waiting, groups[0], ref);
      if !one.saved then Wrote(one.files, one.waiting, [], true)
      else
        var rest := WriteAll(p, one.files, one.waiting, groups[1..], ref + 1);
        rest.(entries := one.entries + rest.entries)
  }

  lemma {:induction false} CarriesBoth(a: World, es: Command, b: World, fs: Command, c: World)
    requires Carries(a, es, b) && Carries(b, fs, c)
    ensures Carries(a, es + fs, c)
  {
    ReversalsAppend(a, es, fs, Redo);
  }

  lemma {:induction false} WriteAllSettles(p: Platform, files: Files, waiting: Waiting, groups: seq<Group>, ref: nat)
    requires GoodWaiting(files, waiting) && Truthful(files, waiting)
    ensures var r := WriteAll(p, files, waiting, groups, ref);
            && GoodWaiting(r.files, r.waiting) && Truthful(r.files, r.waiting)
            && Carries(View(Taken(files, waiting)), r.entries, View(Taken(r.files, r.waiting)))
    decreases groups
  {
    if groups == [] { CarriesNone(View(Taken(files, waiting))); }
    else {
      var one := WriteOne(p, files, waiting, groups[0], ref);
      WriteOneSettles(p, files, waiting, groups[0], ref);
      if one.saved {
        var rest := WriteAll(p, one.files, one.waiting, groups[1..], ref + 1);
        WriteAllSettles(p, one.files, one.waiting, groups[1..], ref + 1);
        CarriesBoth(View(Taken(files, waiting)), one.entries, View(Taken(one.files, one.waiting)), rest.entries, View(Taken(rest.files, rest.waiting)));
      } else { UnsavedEntries(p, files, waiting, groups[0], ref); }
    }
  }

  lemma {:induction false} UnsavedEntries(p: Platform, files: Files, waiting: Waiting, g: Group, ref: nat)
    ensures !WriteOne(p, files, waiting, g, ref).saved ==> WriteOne(p, files, waiting, g, ref).entries == []
  {
  }

  // ----- whatever the drafts hold

  lemma {:induction false} TakingGood(files: Files, waiting: Waiting, g: Group, next: Note, u: Unsaved)
    requires GoodWaiting(files, waiting) && g.file in files && Distinct(next) && IsWaiting(u)
    ensures var r := Taking(files, waiting, g, next, u);
            GoodWaiting(r.files, r.waiting) && forall i :: 0 <= i < |r.entries| ==> Proper(r.entries[i])
  {
    match g.trial
    case Saved => FileGood(files, g.file, next); SetGood(files, files[g.file := File(files[g.file].path, next)], waiting, g.file, u);
    case Drafted => FileGood(files, g.file, next); SetGood(files, files[g.file := File(files[g.file].path, next)], waiting, g.file, u.(drafted := true));
    case Refused(_) => SetGood(files, files, waiting, g.file, u);
    case Committed =>
  }

  lemma {:induction false} FileGood(files: Files, file: nat, next: Note)
    requires GoodFiles(files) && file in files && Distinct(next)
    ensures var files' := files[file := File(files[file].path, next)]; GoodFiles(files') && files'.Keys == files.Keys
  {
  }

  lemma {:induction false} SetGood(files: Files, files': Files, waiting: Waiting, file: nat, u: Unsaved)
    requires GoodWaiting(files, waiting) && GoodFiles(files') && files'.Keys == files.Keys && file in files && IsWaiting(u)
    ensures GoodWaiting(files', waiting[file := u]) && GoodWaiting(files', waiting - {file})
  {
    forall f | f in waiting ensures f in files' && IsWaiting(waiting[f]) { assert f in files; }
  }

  lemma {:induction false} DrawsGood(p: Platform, note: Note, waiting: Waiting, g: Group, ref: nat)
    requires Distinct(note) && (g.file in waiting ==> Retries(waiting, g) && IsWaiting(waiting[g.file]))
    ensures var d := Draw(p, note, waiting, g, ref); Distinct(d.next) && IsWaiting(d.u)
  {
    if Draw(p, note, waiting, g, ref).again { AgainDraws(p, note, waiting, g, ref); } else { FirstPerforms(p, note, waiting, g, ref); }
  }

  lemma {:induction false} WriteOneGood(p: Platform, files: Files, waiting: Waiting, g: Group, ref: nat)
    requires GoodWaiting(files, waiting)
    ensures var r := WriteOne(p, files, waiting, g, ref);
            GoodWaiting(r.files, r.waiting) && forall i :: 0 <= i < |r.entries| ==> Proper(r.entries[i])
  {
    if Admits(files, waiting, g) {
      var d := Draw(p, files[g.file].note, waiting, g, ref);
      DrawsGood(p, files[g.file].note, waiting, g, ref);
      TakingGood(files, waiting, g, d.next, d.u);
    }
  }

  lemma {:induction false} WriteAllGood(p: Platform, files: Files, waiting: Waiting, groups: seq<Group>, ref: nat)
    requires GoodWaiting(files, waiting)
    ensures var r := WriteAll(p, files, waiting, groups, ref);
            GoodWaiting(r.files, r.waiting) && forall i :: 0 <= i < |r.entries| ==> Proper(r.entries[i])
    decreases groups
  {
    if groups != [] {
      var one := WriteOne(p, files, waiting, groups[0], ref);
      WriteOneGood(p, files, waiting, groups[0], ref);
      UnsavedEntries(p, files, waiting, groups[0], ref);
      if one.saved { WriteAllGood(p, one.files, one.waiting, groups[1..], ref + 1); }
    }
  }
}
