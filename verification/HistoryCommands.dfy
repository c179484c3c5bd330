/** The commands of the Base controller that change notes and their history. */
module HistoryCommands {
  import opened Platforms
  import opened PropertyStates
  import opened CommandHistory
  import opened HistoryReplay

  // ----- the entry of an edit

  function Keys(edits: seq<Edit>): (keys: seq<string>)
    ensures forall i, j :: 0 <= i < j < |keys| ==> keys[i] != keys[j]
    ensures forall i :: 0 <= i < |edits| ==> edits[i].key in keys
  {
    if edits == [] then []
    else
      var rest := Keys(edits[..|edits| - 1]);
      var last := edits[|edits| - 1].key;
      if last in rest then rest else rest + [last]
  }

  lemma {:induction false} SameLookups(a: Note, b: Note)
    requires forall key :: Lookup(a, key) == Lookup(b, key)
    ensures FieldsOf(a) == FieldsOf(b)
  {
    forall key ensures Get(FieldsOf(a), key) == Get(FieldsOf(b), key) {
      FieldsLookup(a, key);
      FieldsLookup(b, key);
    }
    FieldsSame(FieldsOf(a), FieldsOf(b));
  }

  /** `after` is what `next`, edited from `note`, says where `before` told of `note`. */
  ghost predicate Performed(note: Note, next: Note, before: seq<PropertyState>, after: seq<PropertyState>) {
    && Distinct(next) && Sides(before, after) && Shows(note, before) && Shows(next, after)
    && forall key :: key !in Targets(after) ==> Lookup(next, key) == Lookup(note, key)
  }

  lemma {:induction false} EditPerforms(p: Platform, note: Note, edits: seq<Edit>, targets: seq<PropertyState>, before: seq<PropertyState>, next: Note)
    requires Distinct(note) && before == States(p, note, Keys(edits), targets) && next == Written(p, note, edits, before)
    ensures Performed(note, next, before, States(p, next, Keys(edits), before))
  {
    var keys := Keys(edits);
    StatesShown(p, note, keys, targets);
    assert Requests(before) == keys;
    WrittenKeeps(p, note, edits, before);
    var after := States(p, next, keys, before);
    StatesShown(p, next, keys, before);
    SameTargets(p, next, keys, before);
    SidesSame(before, after);
  }

  lemma {:induction false} SameTargets(p: Platform, note: Note, keys: seq<string>, before: seq<PropertyState>)
    requires Requests(before) == keys && forall i, j :: 0 <= i < j < |keys| ==> keys[i] != keys[j]
    ensures SameRequests(before, States(p, note, keys, before))
  {
    assert forall i :: 0 <= i < |keys| ==> before[i].requested == keys[i];
    forall i | 0 <= i < |keys| ensures Retained(before, keys[i]) == Some(before[i].target) { RetainedAt(before, i); }
  }

  /** An edit carries out its own entry: what it remembers as before was so, and
      writing back what it remembers as after is the edit. */
  lemma {:induction false} PerformedFields(note: Note, next: Note, before: seq<PropertyState>, after: seq<PropertyState>)
    requires Distinct(note) && Performed(note, next, before, after)
    ensures Match(FieldsOf(note), before) && FieldsOf(next) == Give(FieldsOf(note), after)
    ensures before == after ==> FieldsOf(next) == FieldsOf(note)
  {
    MatchShows(note, before);
    RestoreShows(note, after);
    ShownEverywhere(Restore(note, after), next, after);
    SameLookups(Restore(note, after), next);
    FieldsRestore(note, after);
    if before == after {
      ShownEverywhere(note, next, after);
      SameLookups(note, next);
    }
  }

  /** `entries` carry `start` to `now`. */
  predicate Carries(start: World, entries: Command, now: World) {
    && ReadyAll(start, entries, Redo) && now == Reversals(start, entries, Redo)
    && forall i :: 0 <= i < |entries| ==> Proper(entries[i])
  }

  lemma {:induction false} CarriesOn(start: World, entries: Command, was: World, e: Entry, now: World)
    requires Carries(start, entries, was) && Proper(e) && Ready(was, e, Redo) && now == Reverse(was, e, Redo)
    ensures Carries(start, entries + [e], now)
  {
    ReversalsAppend(start, entries, [e], Redo);
    ReversalsOne(was, e, Redo);
  }

  // ----- publishing

  function Refs(command: Command): set<nat> { set i | 0 <= i < |command| :: command[i].ref }

  /** The entries are different objects. */
  predicate OwnRefs(command: Command) {
    command == [] || (command[0].ref !in Refs(command[1..]) && OwnRefs(command[1..]))
  }

  lemma {:induction false} OwnRefsSplit(a: Command, b: Command)
    ensures OwnRefs(a + b) <==> OwnRefs(a) && OwnRefs(b) && Refs(a) !! Refs(b)
    decreases a
  {
    RefsAppend(a, b);
    if a == [] { assert a + b == b; }
    else {
      assert (a + b)[1..] == a[1..] + b;
      assert a == [a[0]] + a[1..];
      RefsAppend([a[0]], a[1..]);
      RefsAppend(a[1..], b);
      OwnRefsSplit(a[1..], b);
      assert Refs([a[0]]) == {a[0].ref};
    }
  }

  lemma {:induction false} OwnRefsOne(command: Command, e: Entry)
    requires OwnRefs(command) && e.ref !in Refs(command)
    ensures OwnRefs(command + [e]) && Refs(command + [e]) == Refs(command) + {e.ref}
  {
    RefsAppend(command, [e]);
    assert [e][0] == e && [e][1..] == [];
    assert Refs([e]) == {e.ref} by { assert [e][0].ref in Refs([e]); }
    OwnRefsSplit(command, [e]);
  }

  lemma {:induction false} RefsAppend(a: Command, b: Command)
    ensures Refs(a + b) == Refs(a) + Refs(b)
  {
    forall i | 0 <= i < |b| ensures b[i].ref in Refs(a + b) { assert (a + b)[|a| + i] == b[i]; }
    forall i | 0 <= i < |a| ensures a[i].ref in Refs(a + b) { assert (a + b)[i] == a[i]; }
  }

  predicate Owned(stack: seq<Command>) { forall i :: 0 <= i < |stack| ==> OwnRefs(stack[i]) }

  lemma {:induction false} PublishOwned(h: Stacks, d: Direction, k: nat)
    requires Source(h, d) != [] && k <= |Ordered(h, d)| && Owned(h.undo) && Owned(h.redo)
    ensures Owned(Publish(h, d, k).undo) && Owned(Publish(h, d, k).redo)
  {
    var command := Source(h, d)[|Source(h, d)| - 1];
    var n := |command|;
    OwnSlices(command, k);
    OwnSlices(command, n - k);
    if k > 0 && d.Undo? { OwnedBoth(h.undo, h.redo, command[..n - k], command[n - k..]); }
    else if k > 0 { OwnedBoth(h.redo, h.undo, command[k..], command[..k]); }
  }

  lemma {:induction false} OwnedBoth(source: seq<Command>, dest: seq<Command>, rest: Command, applied: Command)
    requires source != [] && Owned(source) && Owned(dest) && OwnRefs(rest) && OwnRefs(applied)
    ensures Owned(Shrunk(source, rest)) && Owned(Grown(dest, applied))
  {
  }

  /** `command.entries.filter(entry => !selected.has(entry))`. */
  function Unselected(command: Command, selected: set<nat>): Command {
    if command == [] then []
    else (if command[0].ref in selected then [] else [command[0]]) + Unselected(command[1..], selected)
  }

  lemma {:induction false} UnselectedAppend(a: Command, b: Command, selected: set<nat>)
    ensures Unselected(a + b, selected) == Unselected(a, selected) + Unselected(b, selected)
    decreases a
  {
    if a == [] { assert a + b == b; }
    else {
      assert (a + b)[1..] == a[1..] + b;
      UnselectedAppend(a[1..], b, selected);
    }
  }

  lemma {:induction false} AllSelected(command: Command, selected: set<nat>)
    requires forall i :: 0 <= i < |command| ==> command[i].ref in selected
    ensures Unselected(command, selected) == []
    decreases command
  {
    if command != [] { AllSelected(command[1..], selected); }
  }

  lemma {:induction false} NoneSelected(command: Command, selected: set<nat>)
    requires forall i :: 0 <= i < |command| ==> command[i].ref !in selected
    ensures Unselected(command, selected) == command
    decreases command
  {
    if command != [] { NoneSelected(command[1..], selected); }
  }

  /** Taking out one end of a command leaves the other. */
  lemma {:induction false} FilterKeepsRest(a: Command, b: Command)
    requires OwnRefs(a + b)
    ensures Unselected(a + b, Refs(a)) == b && Unselected(a + b, Refs(b)) == a
  {
    OwnRefsSplit(a, b);
    UnselectedAppend(a, b, Refs(a));
    UnselectedAppend(a, b, Refs(b));
    AllSelected(a, Refs(a));
    AllSelected(b, Refs(b));
    NoneSelected(a, Refs(b));
    NoneSelected(b, Refs(a));
  }

  lemma {:induction false} BackwardsRefs(es: Command)
    ensures Refs(Backwards(es)) == Refs(es)
  {
    var back := Backwards(es);
    forall r | r in Refs(es) ensures r in Refs(back) {
      var i :| 0 <= i < |es| && es[i].ref == r;
      BackwardsAt(es, |es| - 1 - i);
      assert back[|es| - 1 - i].ref == r;
    }
    forall r | r in Refs(back) ensures r in Refs(es) {
      var i :| 0 <= i < |back| && back[i].ref == r;
      BackwardsAt(es, i);
    }
  }

  // ----- stacks

  predicate ValidStacks(h: Stacks) { GoodStacks(h) && Owned(h.undo) && Owned(h.redo) }

  lemma {:induction false} PublishValid(h: Stacks, d: Direction, k: nat)
    requires Source(h, d) != [] && k <= |Ordered(h, d)| && ValidStacks(h)
    ensures ValidStacks(Publish(h, d, k))
  {
    PublishGood(h, d, k);
    PublishOwned(h, d, k);
  }

  /** Filtering out the applied entries is cutting off the end they form. */
  lemma {:induction false} PublishFilters(h: Stacks, d: Direction, k: nat)
    requires Source(h, d) != [] && 0 < k <= |Ordered(h, d)| && Owned(Source(h, d))
    ensures var applied := Ordered(h, d)[..k];
            var rest := Unselected(Source(h, d)[|Source(h, d)| - 1], Refs(applied));
            Publish(h, d, k) == if d.Undo? then Stacks(Shrunk(h.undo, rest), Grown(h.redo, Backwards(applied)))
                                else Stacks(Grown(h.undo, applied), Shrunk(h.redo, rest))
  {
    FilterPublishes(d, Source(h, d)[|Source(h, d)| - 1], k);
  }

  /** Going on from where the attempt is ends with `all`. */
  predicate LeadsTo(p: Platform, at: Progress, ordered: seq<Entry>, d: Direction, trials: Trials, all: Progress) {
    at.done <= |ordered| &&
    if at.failed then all == at
    else
      var rest := Attempt(p, at.files, at.pending, ordered[at.done..], d, trials);
      all == rest.(done := at.done + rest.done)
  }

  lemma {:induction false} LedTo(p: Platform, at: Progress, ordered: seq<Entry>, d: Direction, trials: Trials, all: Progress)
    requires LeadsTo(p, at, ordered, d, trials, all) && (at.failed || at.done == |ordered|)
    ensures at == all
  {
    assert ordered[|ordered|..] == [];
  }

  lemma {:induction false} AttemptStep(p: Platform, at: Progress, ordered: seq<Entry>, d: Direction, trials: Trials, all: Progress)
    requires LeadsTo(p, at, ordered, d, trials, all) && !at.failed && at.done < |ordered|
    requires GoodFiles(at.files) && Proper(ordered[at.done])
    ensures var e := ordered[at.done];
            var t := Try(p, at.files, at.pending, e, d, trials(e.ref));
            GoodFiles(t.files) && (!t.applied ==> t.stopped)
            && LeadsTo(p, Progress(t.files, t.pending, if t.applied then at.done + 1 else at.done, t.stopped), ordered, d, trials, all)
  {
    var e, i := ordered[at.done], at.done;
    TryKeeps(p, at.files, at.pending, e, d, trials(e.ref));
    assert ordered[i..][0] == e && ordered[i..][1..] == ordered[i + 1..];
  }

  lemma {:induction false} TryKeeps(p: Platform, files: Files, pending: Pending, e: Entry, d: Direction, trial: Trial)
    requires GoodFiles(files) && Proper(e)
    ensures var t := Try(p, files, pending, e, d, trial);
            GoodFiles(t.files) && t.files.Keys == files.Keys && (!t.applied ==> t.stopped)
  {
    if e.file in files && e.change.Edited? { ViewEdit(files, e, d); }
  }

  lemma {:induction false} OwnSlices(command: Command, k: nat)
    requires OwnRefs(command) && k <= |command|
    ensures command[..k] + command[k..] == command && OwnRefs(command[..k]) && OwnRefs(command[k..])
  {
    OwnRefsSplit(command[..k], command[k..]);
    assert command[..k] + command[k..] == command;
  }

  lemma {:induction false} FilterUndone(command: Command, k: nat)
    requires OwnRefs(command) && k <= |command|
    ensures var applied := Backwards(command)[..k];
            && Unselected(command, Refs(applied)) == command[..|command| - k]
            && Backwards(applied) == command[|command| - k..]
  {
    var kept, tail := command[..|command| - k], command[|command| - k..];
    OwnSlices(command, |command| - k);
    BackwardsTail(command, k);
    BackwardsTwice(tail);
    BackwardsRefs(tail);
    FilterKeepsRest(kept, tail);
  }

  lemma {:induction false} FilterPublishes(d: Direction, command: Command, k: nat)
    requires OwnRefs(command) && k <= |command|
    ensures var applied := (if d.Undo? then Backwards(command) else command)[..k];
            && Unselected(command, Refs(applied)) == (if d.Undo? then command[..|command| - k] else command[k..])
            && (if d.Undo? then Backwards(applied) else applied) == (if d.Undo? then command[|command| - k..] else command[..k])
  {
    if d.Undo? { FilterUndone(command, k); }
    else {
      OwnSlices(command, k);
      FilterKeepsRest(command[..k], command[k..]);
    }
  }

  // ----- what a command does

  /** A command on notes: something new is carried out and recorded, or an undo or redo
      gets as far as the host lets it. */
  datatype Deed = Recorded(entries: Command) | Reversal(d: Direction, trials: Trials)

  /** Entries that are new objects. */
  predicate Fresh(h: Stacks, pending: Pending, entries: Command) {
    OwnRefs(entries) && Refs(entries) !! Refs(Timeline(h)) && Refs(entries) !! pending.Keys
  }

  /** The deed takes stacks, files and pending directions from the first to the second. */
  predicate Does(h: Stacks, files: Files, pending: Pending, h': Stacks, files': Files, pending': Pending, p: Platform, deed: Deed) {
    match deed
    case Recorded(entries) =>
      && GoodFiles(files') && pending' == pending && h' == Record(h, entries)
      && Carries(View(files), entries, View(files')) && Fresh(h, pending, entries)
    case Reversal(d, trials) =>
      if Source(h, d) == [] || (exists i :: 0 <= i < |Ordered(h, d)| && Ordered(h, d)[i].file !in files) then
        h' == h && files' == files && pending' == pending
      else
        var r := Attempt(p, files, pending, Ordered(h, d), d, trials);
        h' == Publish(h, d, r.done) && files' == r.files && pending' == r.pending
  }

  // ----- every run of commands

  datatype Situation = Situation(base: World, stacks: Stacks, files: Files, pending: Pending)

  ghost predicate Happens(s: Situation, t: Situation, p: Platform, deed: Deed) {
    && Does(s.stacks, s.files, s.pending, t.stacks, t.files, t.pending, p, deed)
    && t.base == if deed.Recorded? then Rebased(s.base, s.stacks, deed.entries) else s.base
  }

  ghost predicate FollowsAs(s: Situation, half: Option<Direction>) { Follows(s.base, s.stacks, s.files, s.pending, half) }

  /** The notes are what the stacks say, or one upcoming entry is reversed in a draft. */
  ghost predicate Following(s: Situation) { OwnRefs(Timeline(s.stacks)) && exists half :: FollowsAs(s, half) }

  /** No draft differs from what the stacks say. */
  predicate InStep(s: Situation) { View(s.files) == Present(s.base, s.stacks) }

  /** The note shows what the entry left, or a retry finds what it should become. */
  predicate Accepts(files: Files, pending: Pending, e: Entry, d: Direction) {
    e.file in files &&
    (e.change.Edited? ==> Shows(files[e.file].note, Expected(e, d)) || (Retrying(pending, e, d) && Shows(files[e.file].note, Desired(e, d))))
  }

  /** The reversal of the entry is refused, or drafted where it changes nothing. */
  predicate Idle(files: Files, pending: Pending, e: Entry, d: Direction, trial: Trial) {
    match e.change
    case Moved(_, _) => !Accepts(files, pending, e, d) || trial.Refused? || trial.Drafted?
    case Edited(_, _) =>
      !Accepts(files, pending, e, d) || trial.Refused? || trial.Committed? || (trial.Drafted? && Shows(files[e.file].note, Desired(e, d)))
  }

  /** The reversal applies nothing and changes no draft: there is none, a note is gone, or
      it goes no further than its first entry, which is idle. */
  predicate Quiet(s: Situation, d: Direction, trials: Trials) {
    Source(s.stacks, d) != [] ==>
      var ordered := Ordered(s.stacks, d);
      (exists i :: 0 <= i < |ordered| && ordered[i].file !in s.files)
      || ordered == [] || Idle(s.files, s.pending, ordered[0], d, trials(ordered[0].ref))
  }

  lemma {:induction false} AcceptsReversed(p: Platform, files: Files, pending: Pending, e: Entry, d: Direction)
    requires e.file in files && e.change.Edited? && Proper(e)
    ensures Reversed(p, files[e.file].note, Expected(e, d), Desired(e, d), Retrying(pending, e, d))
         == if Accepts(files, pending, e, d) then Some(Restore(files[e.file].note, Desired(e, d))) else None
  {
    SidesSame(e.change.before, e.change.after);
    ReversedWhenExpected(p, files[e.file].note, Expected(e, d), Desired(e, d), Retrying(pending, e, d));
  }

  lemma {:induction false} IdleTry(p: Platform, files: Files, pending: Pending, e: Entry, d: Direction, trial: Trial)
    requires GoodFiles(files) && Proper(e)
    ensures var t := Try(p, files, pending, e, d, trial);
            Idle(files, pending, e, d, trial) <==> !t.applied && View(t.files) == View(files)
  {
    if e.file in files && e.change.Edited? {
      AcceptsReversed(p, files, pending, e, d);
      ViewEdit(files, e, d);
      SidesSame(e.change.before, e.change.after);
      MatchShows(files[e.file].note, Desired(e, d));
      GiveIdle(FieldsOf(files[e.file].note), Desired(e, d));
      IdleView(View(files), e, d);
    }
  }

  lemma {:induction false} IdleView(w: World, e: Entry, d: Direction)
    requires e.file in w && e.change.Edited?
    ensures Reverse(w, e, d) == w <==> Give(w[e.file].fields, Desired(e, d)) == w[e.file].fields
  {
    assert Reverse(w, e, d)[e.file].fields == Give(w[e.file].fields, Desired(e, d));
  }

  lemma {:induction false} QuietAttempt(p: Platform, files: Files, pending: Pending, ordered: Command, d: Direction, trials: Trials)
    requires GoodFiles(files) && ordered != [] && forall i :: 0 <= i < |ordered| ==> Proper(ordered[i])
    ensures var r := Attempt(p, files, pending, ordered, d, trials);
            Idle(files, pending, ordered[0], d, trials(ordered[0].ref)) <==> r.done == 0 && View(r.files) == View(files)
  {
    IdleTry(p, files, pending, ordered[0], d, trials(ordered[0].ref));
    TryKeeps(p, files, pending, ordered[0], d, trials(ordered[0].ref));
  }

  /** Nothing is drafted; or the command leaves the draft alone, or retries it. */
  ghost predicate Careful(s: Situation, deed: Deed) {
    || InStep(s)
    || (match deed
        case Recorded(entries) => entries == []
        case Reversal(d, trials) => FollowsAs(s, Some(d)) || Quiet(s, d, trials))
  }

  lemma {:induction false} HalfIsReal(t: Situation, half: Option<Direction>)
    requires OwnRefs(Timeline(t.stacks)) && FollowsAs(t, half)
    ensures Following(t) && (InStep(t) ==> FollowsAs(t, None))
  {
  }

  lemma {:induction false} TryLeaves(p: Platform, files: Files, pending: Pending, e: Entry, d: Direction, trial: Trial, ref: nat)
    requires GoodFiles(files) && Proper(e) && ref != e.ref
    ensures var t := Try(p, files, pending, e, d, trial);
            GoodFiles(t.files) && (ref in t.pending <==> ref in pending) && (ref in pending ==> t.pending[ref] == pending[ref])
  {
    TryKeeps(p, files, pending, e, d, trial);
  }

  /** An attempt notes directions for its own entries only. */
  lemma {:induction false} AttemptLeaves(p: Platform, files: Files, pending: Pending, ordered: seq<Entry>, d: Direction, trials: Trials, ref: nat)
    requires GoodFiles(files) && (forall i :: 0 <= i < |ordered| ==> Proper(ordered[i])) && ref !in Refs(ordered)
    ensures var r := Attempt(p, files, pending, ordered, d, trials);
            GoodFiles(r.files) && (ref in r.pending <==> ref in pending) && (ref in pending ==> r.pending[ref] == pending[ref])
    decreases ordered
  {
    if ordered != [] {
      assert ordered[0].ref in Refs(ordered);
      assert ordered == [ordered[0]] + ordered[1..];
      RefsAppend([ordered[0]], ordered[1..]);
      TryLeaves(p, files, pending, ordered[0], d, trials(ordered[0].ref), ref);
      var t := Try(p, files, pending, ordered[0], d, trials(ordered[0].ref));
      if !t.stopped { AttemptLeaves(p, t.files, t.pending, ordered[1..], d, trials, ref); }
    }
  }

  lemma {:induction false} RefOf(es: seq<Entry>, i: nat)
    requires i < |es|
    ensures es[i].ref in Refs(es)
  {
  }

  /** The drafted entry is none of those that the other direction attempts. */
  lemma {:induction false} SidesApart(h: Stacks, d: Direction)
    requires GoodStacks(h) && OwnRefs(Timeline(h)) && h.undo != [] && h.redo != []
    ensures Upcoming(h, Opposite(d)).ref !in Refs(Ordered(h, d))
  {
    OwnRefsSplit(Flat(h.undo), Ahead(h.redo));
    FlatTop(h.undo);
    FlatTop(h.redo);
    var done, next := h.undo[|h.undo| - 1], h.redo[|h.redo| - 1];
    RefsAppend(Flat(h.undo[..|h.undo| - 1]), done);
    RefsAppend(next, Ahead(h.redo[..|h.redo| - 1]));
    BackwardsRefs(done);
    if d.Undo? { RefOf(next, 0); } else { RefOf(done, |done| - 1); }
  }

  lemma {:induction false} OrderedSome(h: Stacks, d: Direction)
    requires GoodStacks(h) && Source(h, d) != []
    ensures Ordered(h, d) != []
  {
  }

  lemma {:induction false} QuietFollows(p: Platform, s: Situation, t: Situation, d: Direction, trials: Trials)
    requires Following(s) && Happens(s, t, p, Reversal(d, trials)) && Quiet(s, d, trials) && !FollowsAs(s, Some(d)) && !InStep(s)
    ensures Following(t)
  {
    var half :| FollowsAs(s, half);
    assert half == Some(Opposite(d));
    if Source(s.stacks, d) != [] {
      var e, ordered := Upcoming(s.stacks, Opposite(d)), Ordered(s.stacks, d);
      SidesApart(s.stacks, d);
      OrderedProper(s.stacks, d);
      AttemptLeaves(p, s.files, s.pending, ordered, d, trials, e.ref);
      OrderedSome(s.stacks, d);
      QuietAttempt(p, s.files, s.pending, ordered, d, trials);
      assert FollowsAs(t, half);
    }
  }

  /** Recording keeps the entries of the timeline different objects. */
  lemma {:induction false} RecordOwned(h: Stacks, pending: Pending, entries: Command)
    requires OwnRefs(Timeline(h)) && Fresh(h, pending, entries)
    ensures OwnRefs(Timeline(Record(h, entries)))
  {
    if entries != [] {
      var undo := h.undo + [entries];
      FlatTop(undo);
      assert undo[..|h.undo|] == h.undo;
      OwnRefsSplit(Flat(h.undo), Ahead(h.redo));
      RefsAppend(Flat(h.undo), Ahead(h.redo));
      OwnRefsSplit(Flat(h.undo), entries);
      FlatFirst(undo);
      OwnRefsSplit(undo[0], Flat(undo[1..]));
      assert Flat(undo) + [] == Flat(undo) && Flat(undo[1..]) + [] == Flat(undo[1..]);
    }
  }

  lemma {:induction false} CommandFollows(p: Platform, s: Situation, t: Situation, deed: Deed)
    requires Following(s) && Happens(s, t, p, deed) && Careful(s, deed)
    ensures Following(t)
  {
    var half :| FollowsAs(s, half);
    HalfIsReal(s, half);
    match deed {
      case Recorded(entries) =>
        RecordOwned(s.stacks, s.pending, entries);
        if InStep(s) {
          RecordFollows(s.base, s.stacks, s.files, s.pending, entries, t.files);
          assert FollowsAs(t, None);
        } else {
          assert FollowsAs(t, half);
        }
      case Reversal(d, trials) =>
        if InStep(s) || FollowsAs(s, Some(d)) { ReversalFollows(p, s, t, d, trials, if InStep(s) then None else Some(d)); }
        else { QuietFollows(p, s, t, d, trials); }
    }
  }

  lemma {:induction false} ReversalFollows(p: Platform, s: Situation, t: Situation, d: Direction, trials: Trials, half: Option<Direction>)
    requires OwnRefs(Timeline(s.stacks)) && FollowsAs(s, half) && half in {None, Some(d)} && Happens(s, t, p, Reversal(d, trials))
    ensures Following(t)
  {
    if Source(s.stacks, d) == [] || (exists i :: 0 <= i < |Ordered(s.stacks, d)| && Ordered(s.stacks, d)[i].file !in s.files) {
      assert FollowsAs(t, half);
    } else { AttemptFollows(p, s, t, d, trials, half); }
  }

  lemma {:induction false} AttemptFollows(p: Platform, s: Situation, t: Situation, d: Direction, trials: Trials, half: Option<Direction>)
    requires OwnRefs(Timeline(s.stacks)) && FollowsAs(s, half) && half in {None, Some(d)} && Source(s.stacks, d) != []
    requires var r := Attempt(p, s.files, s.pending, Ordered(s.stacks, d), d, trials);
             t == Situation(s.base, Publish(s.stacks, d, r.done), r.files, r.pending)
    ensures Following(t)
  {
    var half' := HistoryFollows(p, s.base, s.stacks, s.files, s.pending, half, d, trials);
    TimelineFixed(s.stacks, d, Attempt(p, s.files, s.pending, Ordered(s.stacks, d), d, trials).done);
    assert FollowsAs(t, half');
  }
}
