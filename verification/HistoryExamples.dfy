/** Sessions in which notes and history come apart, one call after another. */
module HistoryExamples {
  import opened Platforms
  import opened PropertyStates
  import opened CommandHistory
  import opened HistoryReplay
  import opened HistoryCommands
  import opened HistoryDrafts
  import opened HistoryWrites
  import opened HistoryMirrors
  import opened HistorySessions

  // ----- an edit after an undo whose save failed

  const DRAFTED: Trials := (r: nat) => Drafted

  /** An undo whose save fails leaves its reversal in a draft; then whatever is recorded puts
      the notes out of step. */
  lemma {:induction false} DraftThenCall(p: Platform, s: Session, call: Call)
    requires Follow(s) && InStep(Settled(s)) && s.waiting == map[] && s.stacks.undo != []
    requires Upcoming(s.stacks, Undo).change.Edited? && Reverse(View(s.files), Upcoming(s.stacks, Undo), Undo) != View(s.files)
    requires Callable(call) && !call.Reversing?
    ensures var t := Next(p, s, Reversing(Undo, DRAFTED));
            Follow(t) && t.stacks == s.stacks && (Entries(p, t, call) != [] ==> !Follow(Next(p, t, call)))
  {
    var t := Next(p, s, Reversing(Undo, DRAFTED));
    UndoStartsHere(s);
    ReversingFollows(p, s, Undo, DRAFTED);
    PlainReverses(p, s, Undo, DRAFTED);
    NothingTakenOut(s.files, s.waiting);
    DraftedDiffers(p, Settled(s), Settled(t), DRAFTED);
    RecordingFollows(p, t, call);
  }

  lemma {:induction false} UndoStartsHere(s: Session)
    requires Follow(s) && InStep(Settled(s)) && s.waiting == map[] && s.stacks.undo != []
    ensures FollowsAs(Settled(s), None) && !Barred(s, Undo) && Settling(s, Undo) && UnmixedIn(s, Undo)
    ensures Steady(s.files, s.pending, s.waiting, Ordered(s.stacks, Undo), Undo, DRAFTED)
  {
    var half :| FollowsAs(Settled(s), half);
    HalfIsReal(Settled(s), half);
    NothingTakenOut(s.files, s.waiting);
    UndoStarts(Settled(s));
  }

  // ----- the notes of the examples

  function Sets(key: string, text: string): Edit { Edit(key, Some(Str(text))) }

  lemma {:induction false} OneKey(edits: seq<Edit>, key: string)
    requires |edits| == 1 && edits[0].key == key
    ensures Keys(edits) == [key]
  {
    assert edits[..0] == [] && Keys([]) == [] && [] + [key] == [key];
  }

  /** Writing one property of a note without any. */
  lemma {:induction false} FirstProperty(p: Platform, key: string, text: string, g: Group, ref: nat)
    requires g.edits == [Sets(key, text)]
    ensures var d := Draw(p, [], map[], g, ref);
            && d.next == [Property(key, Str(text))] && !d.again
            && d.u == Unsaved(g.edits, ref, [PropertyState(key, key, None)], [PropertyState(key, key, Some(Str(text)))], false, false)
  {
    OneKey(g.edits, key);
    var before := States(p, [], [key], []);
    assert before == [PropertyState(key, key, None)];
    assert g.edits[1..] == [];
    var next := [Property(key, Str(text))];
    assert Written(p, [], g.edits, before) == Written(p, next, [], before) == next;
    assert States(p, next, [key], before) == [PropertyState(key, key, Some(Str(text)))];
  }

  /** One saved edit of a note without properties, and what it records. */
  function Open(file: nat): Group { Group(file, [Sets("status", "open")], Saved) }

  function Opened(file: nat, ref: nat): Entry {
    Entry(ref, file, Edited([PropertyState("status", "status", None)], [PropertyState("status", "status", Some(Str("open")))]))
  }

  lemma {:induction false} OpenWrites(p: Platform, files: Files, file: nat, ref: nat)
    requires file in files && files[file].note == []
    ensures var r := WriteAll(p, files, map[], [Open(file)], ref);
            r == Wrote(files[file := File(files[file].path, [Property("status", Str("open"))])], map[], [Opened(file, ref)], false)
  {
    FirstProperty(p, "status", "open", Open(file), ref);
    OneGroup(p, files, map[], Open(file), ref);
    assert Draw(p, files[file].note, map[], Open(file), ref).u.before[0] != Draw(p, files[file].note, map[], Open(file), ref).u.after[0];
  }

  lemma {:induction false} OneEdit(p: Platform, files: Files, f: nat)
    requires GoodFiles(files) && f in files && files[f].note == []
    ensures var s := Next(p, Fresh0(files), Edits([Open(f)]));
            && s.waiting == map[] && s.stacks == Stacks([[Opened(f, 0)]], [])
            && s.files == files[f := File(files[f].path, [Property("status", Str("open"))])]
  {
    OpenWrites(p, files, f, 0);
    assert [] + [[Opened(f, 0)]] == [[Opened(f, 0)]];
  }

  lemma {:induction false} OneEditFollows(p: Platform, files: Files, f: nat)
    requires GoodFiles(files) && f in files && files[f].note == []
    ensures var s := Next(p, Fresh0(files), Edits([Open(f)])); Follow(s) && InStep(Settled(s))
  {
    var s0, call := Fresh0(files), Edits([Open(f)]);
    Starts(files);
    RecordingFollows(p, s0, call);
    EditsSettle(p, s0, [Open(f)]);
    RecordedPresent(Settled(s0), Settled(Next(p, s0, call)), p, Entries(p, s0, call));
  }

  lemma {:induction false} OpenedBack(files: Files, file: nat, ref: nat)
    requires file in files && files[file].note == [Property("status", Str("open"))]
    ensures Reverse(View(files), Opened(file, ref), Undo) != View(files)
  {
    var fields, closed := FieldsOf(files[file].note), [PropertyState("status", "status", None)];
    FieldsLookup(files[file].note, "status");
    GiveIdle(fields, closed);
    assert !Match(fields, closed) by { assert closed[0].target == "status" && closed[0].value == None; }
    IdleView(View(files), Opened(file, ref), Undo);
  }

  lemma {:induction false} OneOrdered(h: Stacks, e: Entry)
    requires h.undo == [[e]] && GoodStacks(h)
    ensures Upcoming(h, Undo) == e && Ordered(h, Undo) == [e]
  {
    assert Backwards([e]) == Backwards([e][1..]) + [e];
  }

  lemma {:induction false} OthersLeft(p: Platform, s: Session, e: Entry, g: nat)
    requires s.stacks.undo == [[e]] && GoodStacks(s.stacks) && e.file != g && g in s.files
    ensures var t := Next(p, s, Reversing(Undo, DRAFTED)); g in t.files && t.files[g] == s.files[g] && (s.waiting == map[] ==> t.waiting == map[])
  {
    OneOrdered(s.stacks, e);
    AttemptElsewhere(p, s.files, s.pending, [e], Undo, DRAFTED, g);
  }

  /** Two notes without properties: the edit of one is undone, the save of that fails, and
      the other is edited. */
  lemma {:induction false} UndoThenEdit(p: Platform, files: Files, f: nat, g: nat, s: Session, t: Session, u: Session)
    requires files == map[f := File("a.md", []), g := File("b.md", [])] && f != g
    requires s == Next(p, Fresh0(files), Edits([Open(f)])) && t == Next(p, s, Reversing(Undo, DRAFTED)) && u == Next(p, t, Edits([Open(g)]))
    ensures Follow(s) && Follow(t) && !Follow(u)
  {
    EmptyNotes(p, files, f, g, s, t);
  }

  lemma {:induction false} EmptyNotes(p: Platform, files: Files, f: nat, g: nat, s: Session, t: Session)
    requires GoodFiles(files) && f in files && g in files && f != g && files[f].note == [] && files[g].note == []
    requires s == Next(p, Fresh0(files), Edits([Open(f)])) && t == Next(p, s, Reversing(Undo, DRAFTED))
    ensures Follow(s) && Follow(t) && !Follow(Next(p, t, Edits([Open(g)])))
  {
    OneEdit(p, files, f);
    OneEditFollows(p, files, f);
    EditedThenDrafted(p, s, f, g, t);
  }

  lemma {:induction false} EditedThenDrafted(p: Platform, s: Session, f: nat, g: nat, t: Session)
    requires Follow(s) && InStep(Settled(s)) && s.waiting == map[] && s.stacks.undo == [[Opened(f, 0)]] && f != g
    requires f in s.files && s.files[f].note == [Property("status", Str("open"))] && g in s.files && s.files[g].note == []
    requires t == Next(p, s, Reversing(Undo, DRAFTED))
    ensures Follow(t) && !Follow(Next(p, t, Edits([Open(g)])))
  {
    OneOrdered(s.stacks, Opened(f, 0));
    OpenedBack(s.files, f, 0);
    OthersLeft(p, s, Opened(f, 0), g);
    OpenWrites(p, t.files, g, t.created);
    DraftThenCall(p, s, Edits([Open(g)]));
  }

  // ----- an undo beside a drafted edit of the same property

  /** An edit that leaves the status as it is and adds a due day; its save fails. */
  const PLANNED: seq<Edit> := [Edit("status", Some(Str("open"))), Edit("due", Some(Str("today")))]

  function Unplanned(): seq<PropertyState> { [PropertyState("status", "status", Some(Str("open"))), PropertyState("due", "due", None)] }

  function Planned(): seq<PropertyState> { [PropertyState("status", "status", Some(Str("open"))), PropertyState("due", "due", Some(Str("today")))] }

  lemma {:induction false} PlannedKeys()
    ensures Keys(PLANNED) == ["status", "due"]
  {
    var first := PLANNED[..1];
    OneKey(first, "status");
    assert PLANNED[..|PLANNED| - 1] == first;
  }

  lemma {:induction false} PlanReads(p: Platform, note: Note)
    requires note == [Property("status", Str("open"))] && p.lower("status") != p.lower("due")
    ensures States(p, note, ["status", "due"], []) == Unplanned()
  {
    var keys := seq(|note|, i requires 0 <= i < |note| => note[i].key);
    assert keys == ["status"];
    var due, status := OwnKey(p, keys, "due"), OwnKey(p, keys, "status");
    assert "status" in keys;
    assert Target(p, note, "due") == "due" && Target(p, note, "status") == "status";
    assert Position(note, "due") == 1 && Position(note, "status") == 0 by { assert note[1..] == []; }
  }

  lemma {:induction false} PlanWrites(p: Platform, note: Note, next: Note)
    requires note == [Property("status", Str("open"))] && next == [Property("status", Str("open")), Property("due", Str("today"))]
    ensures Written(p, note, PLANNED, Unplanned()) == next && States(p, next, ["status", "due"], Unplanned()) == Planned()
  {
    var rest := PLANNED[1..];
    assert rest == [Edit("due", Some(Str("today")))] && rest[1..] == [];
    assert Unplanned()[1..][0] == Unplanned()[1];
    assert Retained(Unplanned(), "status") == Some("status") && Retained(Unplanned(), "due") == Some("due");
    assert Position(note, "status") == 0 && Position(note, "due") == 1 by { assert note[1..] == []; }
    assert SetProperty(note, "status", Str("open")) == note && SetProperty(note, "due", Str("today")) == next;
    assert Written(p, note, rest, Unplanned()) == Written(p, next, [], Unplanned()) == next;
    assert next[1..] == [Property("due", Str("today"))];
    assert Position(next, "status") == 0 && Position(next, "due") == 1;
  }

  lemma {:induction false} PlanDraws(p: Platform, note: Note, g: Group, ref: nat)
    requires note == [Property("status", Str("open"))] && p.lower("status") != p.lower("due") && g.edits == PLANNED
    ensures var d := Draw(p, note, map[], g, ref);
            d.u == Unsaved(PLANNED, ref, Unplanned(), Planned(), false, false) && d.next == [Property("status", Str("open")), Property("due", Str("today"))]
  {
    PlannedKeys();
    PlanReads(p, note);
    PlanWrites(p, note, [Property("status", Str("open")), Property("due", Str("today"))]);
  }

  /** After the edit, the plan is drafted. */
  lemma {:induction false} PlanWaits(p: Platform, s: Session, f: nat)
    requires s.waiting == map[] && p.lower("status") != p.lower("due") && f in s.files && s.files[f].note == [Property("status", Str("open"))]
    ensures var r := WriteAll(p, s.files, s.waiting, [Group(f, PLANNED, Drafted)], s.created);
            && r.entries == [] && f in r.files && r.files[f].note == [Property("status", Str("open")), Property("due", Str("today"))]
            && r.waiting == map[f := Unsaved(PLANNED, s.created, Unplanned(), Planned(), false, true)]
  {
    var g := Group(f, PLANNED, Drafted);
    PlanDraws(p, s.files[f].note, g, s.created);
    OneGroup(p, s.files, s.waiting, g, s.created);
  }

  lemma {:induction false} NoneRecorded(p: Platform, s: Session, groups: seq<Group>)
    requires Follow(s) && InStep(Settled(s)) && OneGroupEach(groups) && Entries(p, s, Edits(groups)) == []
    ensures var t := Next(p, s, Edits(groups)); Follow(t) && InStep(Settled(t)) && t.stacks == s.stacks
  {
    RecordingFollows(p, s, Edits(groups));
    EditsSettle(p, s, groups);
    RecordedPresent(Settled(s), Settled(Next(p, s, Edits(groups))), p, []);
  }

  const SAVED: Trials := (r: nat) => Saved

  lemma {:induction false} Unstatused(note: Note)
    requires note == [Property("status", Str("open")), Property("due", Str("today"))]
    ensures var undone := Restore(note, [PropertyState("status", "status", None)]);
            undone == [Property("due", Str("today"))] && !Shows(undone, Planned()) && Shows(note, [PropertyState("status", "status", Some(Str("open")))])
  {
    var closed := [PropertyState("status", "status", None)];
    assert closed[1..] == [] && Position(note, "status") == 0;
    var undone := RemoveProperty(note, "status");
    assert undone == [Property("due", Str("today"))];
    assert Restore(note, closed) == Restore(undone, []) == undone;
    assert Position(undone, "status") == 1 by { assert undone[1..] == []; }
    assert Planned()[0].target == "status";
  }

  /** The status is set. An edit that sets it again, and a due day, fails to save and waits.
      The first edit is undone: the note does not show the edit that waits any more, and a
      retry would take the drafted due day for what was there before. */
  lemma {:induction false} UndoBesideDraft(p: Platform, files: Files, f: nat, s: Session, t: Session, u: Session)
    requires files == map[f := File("a.md", [])] && p.lower("status") != p.lower("due")
    requires s == Next(p, Fresh0(files), Edits([Open(f)])) && t == Next(p, s, Edits([Group(f, PLANNED, Drafted)]))
    requires u == Next(p, t, Reversing(Undo, SAVED))
    ensures Follow(s) && Follow(t) && InStep(Settled(t)) && !Follow(u)
  {
    OneEdit(p, files, f);
    OneEditFollows(p, files, f);
    PlanWaits(p, s, f);
    NoneRecorded(p, s, [Group(f, PLANNED, Drafted)]);
    Unstatused(t.files[f].note);
    UndoUnsteady(p, t, f);
  }

  lemma {:induction false} Unsteady(t: Session, e: Entry, f: nat)
    requires f in t.files && f in t.waiting && e.file == f && e.change.Edited? && Shows(t.files[f].note, e.change.after)
    requires t.waiting[f].before != t.waiting[f].after && t.waiting[f].drafted
    requires !Shows(Restore(t.files[f].note, e.change.before), t.waiting[f].after)
    ensures !Steady(t.files, t.pending, t.waiting, [e], Undo, SAVED)
  {
  }

  lemma {:induction false} UndoUnsteady(p: Platform, t: Session, f: nat)
    requires Follow(t) && t.stacks == Stacks([[Opened(f, 0)]], []) && f in t.files && f in t.waiting
    requires Shows(t.files[f].note, [PropertyState("status", "status", Some(Str("open")))])
    requires t.waiting[f].before == Unplanned() && t.waiting[f].after == Planned() && t.waiting[f].drafted
    requires !Shows(Restore(t.files[f].note, [PropertyState("status", "status", None)]), Planned())
    ensures !Follow(Next(p, t, Reversing(Undo, SAVED)))
  {
    OneOrdered(t.stacks, Opened(f, 0));
    assert Unplanned()[1] != Planned()[1];
    Unsteady(t, Opened(f, 0), f);
    SteadyExactly(p, t, Undo, SAVED);
  }

  /** Whatever a retry records when the note does not show the waiting edit starts from what
      the note shows now. */
  lemma {:induction false} BaselineLost(p: Platform, s: Session, f: nat)
    requires Sound(s) && f in s.waiting && !s.waiting[f].moved && !Shows(s.files[f].note, s.waiting[f].after)
    ensures forall e :: e in Entries(p, s, Retry(s, f)) ==> e.change.Edited? && Shows(s.files[f].note, e.change.before)
  {
    var g := Group(f, s.waiting[f].edits, Saved);
    OneGroup(p, s.files, s.waiting, g, s.created);
    FreshBaseline(p, s.files[f].note, s.waiting, g, s.created);
  }

  lemma {:induction false} FreshBaseline(p: Platform, note: Note, waiting: Waiting, g: Group, ref: nat)
    requires g.file in waiting && Retries(waiting, g) && IsWaiting(waiting[g.file]) && !Shows(note, waiting[g.file].after)
    ensures Shows(note, Draw(p, note, waiting, g, ref).u.before)
  {
    FoundAgain(p, note, g.edits, waiting[g.file]);
    StatesShown(p, note, Keys(g.edits), waiting[g.file].after);
  }
}
