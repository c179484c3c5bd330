/** Undo and redo beside edits that wait in drafts: without those edits the notes go
    through the very same reversals. */
module HistoryMirrors {
  import opened Platforms
  import opened PropertyStates
  import opened CommandHistory
  import opened HistoryReplay
  import opened HistoryCommands
  import opened HistoryWrites

  // ----- one note

  /** Where the states and the edit's changes meet, the states are those before the edit. */
  predicate Agrees(u: Unsaved, states: seq<PropertyState>) {
    |u.before| == |u.after| &&
    forall i, j :: 0 <= i < |states| && 0 <= j < |u.before| && states[i].target == u.before[j].target && u.before[j].value != u.after[j].value ==>
      states[i].value == u.before[j].value
  }

  lemma {:induction false} DraftCommutes(fields: Fields, u: Unsaved, states: seq<PropertyState>)
    requires IsWaiting(u) && Coherent(states) && (u.drafted ==> Agrees(u, states))
    ensures TakenFields(Give(fields, states), u) == Give(TakenFields(fields, u), states)
  {
    if u.drafted {
      var given, taken := Give(fields, states), TakenFields(fields, u);
      GiveMatches(fields, states);
      GiveMatches(taken, states);
      forall key ensures Get(TakenFields(given, u), key) == Get(Give(taken, states), key) {
        CommutesAt(fields, u, states, key);
      }
      FieldsSame(TakenFields(given, u), Give(taken, states));
    }
  }

  lemma {:induction false} CommutesAt(fields: Fields, u: Unsaved, states: seq<PropertyState>, key: string)
    requires IsWaiting(u) && Coherent(states) && u.drafted && Agrees(u, states)
    ensures Get(TakenFields(Give(fields, states), u), key) == Get(Give(TakenFields(fields, u), states), key)
  {
    var given, taken := Give(fields, states), TakenFields(fields, u);
    GiveMatches(fields, states);
    GiveMatches(taken, states);
    ChangesGive(given, u.before, u.after, key);
    ChangesGive(fields, u.before, u.after, key);
    if Changed(u.before, u.after, key) {
      var j :| 0 <= j < |u.before| && u.before[j].target == key && u.before[j].value != u.after[j].value;
      if key in Targets(states) { var i :| 0 <= i < |states| && states[i].target == key; }
    } else if key in Targets(states) {
      var i :| 0 <= i < |states| && states[i].target == key;
    }
  }

  /** A reversal that the note accepts, with the edit in its draft or without, agrees with
      the edit; unless the note was to be retried and the edit wrote what it should become. */
  lemma {:induction false} AcceptedAgrees(fields: Fields, u: Unsaved, here: seq<PropertyState>, there: seq<PropertyState>, retrying: bool)
    requires IsWaiting(u) && u.drafted && Sides(here, there) && (u.before != u.after ==> Match(fields, u.after))
    requires Match(fields, here) || (retrying && Match(fields, there))
    requires Match(TakenFields(fields, u), here) || Match(TakenFields(fields, u), there)
    requires retrying ==> Match(TakenFields(fields, u), there)
    ensures Agrees(u, there)
  {
    var taken := TakenFields(fields, u);
    forall i, j | 0 <= i < |there| && 0 <= j < |u.before| && there[i].target == u.before[j].target && u.before[j].value != u.after[j].value
      ensures there[i].value == u.before[j].value
    {
      ChangesGive(fields, u.before, u.after, u.before[j].target);
      assert Get(taken, there[i].target) == u.before[j].value;
      assert u.before[j].target == u.after[j].target && here[i].target == there[i].target;
      assert Get(fields, there[i].target) == u.after[j].value;
    }
  }

  // ----- one entry

  predicate Drafts(waiting: Waiting, file: nat) { file in waiting && waiting[file].drafted }

  predicate TruthfulOf(files: Files, waiting: Waiting, f: nat) { f in waiting && f in files ==> TruthfulAt(files[f].note, waiting[f]) }

  /** `settled` are the notes without the edits that wait, in whatever order of properties. */
  predicate Mirrors(settled: Files, files: Files, waiting: Waiting) {
    GoodFiles(settled) && GoodWaiting(files, waiting) && View(settled) == View(Taken(files, waiting))
  }

  lemma {:induction false} MirrorAt(settled: Files, files: Files, waiting: Waiting, f: nat)
    requires Mirrors(settled, files, waiting)
    ensures settled.Keys == files.Keys
    ensures f in files ==> View(settled)[f] == Place(files[f].path, TakenAt(FieldsOf(files[f].note), waiting, f))
  {
    TakenView(files, waiting);
    assert View(settled).Keys == settled.Keys && View(Taken(files, waiting)).Keys == files.Keys;
  }

  lemma {:induction false} MirrorWritten(settled: Files, files: Files, waiting: Waiting, e: Entry, d: Direction)
    requires Mirrors(settled, files, waiting) && e.file in files && e.change.Edited? && Proper(e)
    requires Drafts(waiting, e.file) ==> Agrees(waiting[e.file], Desired(e, d))
    ensures e.file in settled
    ensures Mirrors(settled[e.file := File(settled[e.file].path, Restore(settled[e.file].note, Desired(e, d)))],
                    files[e.file := File(files[e.file].path, Restore(files[e.file].note, Desired(e, d)))], waiting)
  {
    MirrorAt(settled, files, waiting, e.file);
    var file, next := files[e.file], Restore(files[e.file].note, Desired(e, d));
    var was := View(Taken(files, waiting));
    ViewEdit(settled, e, d);
    RestoreLooks(file.note, Desired(e, d), "");
    FieldsRestore(file.note, Desired(e, d));
    Replaced(files, waiting, e.file, next, waiting);
    if e.file in waiting { DraftCommutes(FieldsOf(file.note), waiting[e.file], Desired(e, d)); }
    WrittenGood(files, waiting, e.file, next);
  }

  lemma {:induction false} WrittenGood(files: Files, waiting: Waiting, file: nat, next: Note)
    requires GoodWaiting(files, waiting) && file in files && Distinct(next)
    ensures GoodWaiting(files[file := File(files[file].path, next)], waiting)
  {
  }

  lemma {:induction false} MirrorMoved(settled: Files, files: Files, waiting: Waiting, file: nat, dest: string)
    requires Mirrors(settled, files, waiting) && file in files
    ensures file in settled
    ensures Mirrors(settled[file := File(dest, settled[file].note)], files[file := File(dest, files[file].note)], waiting)
  {
    MirrorAt(settled, files, waiting, file);
    RenamedView(files, waiting, file, dest);
    MovedView(settled, file, dest);
    MovedGood(files, waiting, file, dest);
  }

  lemma {:induction false} MovedGood(files: Files, waiting: Waiting, file: nat, dest: string)
    requires GoodWaiting(files, waiting) && file in files
    ensures GoodWaiting(files[file := File(dest, files[file].note)], waiting)
  {
  }

  lemma {:induction false} MovedView(files: Files, file: nat, dest: string)
    requires GoodFiles(files) && file in files
    ensures var moved := files[file := File(dest, files[file].note)];
            GoodFiles(moved) && file in View(files) && View(moved) == View(files)[file := Place(dest, View(files)[file].fields)]
  {
    NothingWaits(files);
    NothingWaits(files[file := File(dest, files[file].note)]);
    RenamedView(files, map[], file, dest);
  }

  lemma {:induction false} NothingWaits(files: Files)
    ensures Taken(files, map[]) == files
  {
  }

  /** How the mirrored attempt takes an entry: as the note does, or refusing it when the note does. */
  function Mirrored(files: Files, pending: Pending, e: Entry, d: Direction, trial: Trial): Trial {
    if Accepts(files, pending, e, d) then trial else Refused(false)
  }

  /** How an accepted edit is taken, when `written` are the notes with it. */
  function Took(files: Files, written: Files, pending: Pending, e: Entry, d: Direction, trial: Trial): Tried {
    match trial
    case Saved => Tried(written, pending - {e.ref}, true, false)
    case Drafted => Tried(written, pending[e.ref := d], false, true)
    case Refused(noted) => Tried(files, if noted then pending[e.ref := d] else pending, false, true)
    case Committed => Tried(files, pending, false, true)
  }

  lemma {:induction false} TryTakes(p: Platform, files: Files, pending: Pending, e: Entry, d: Direction, trial: Trial)
    requires e.file in files && e.change.Edited?
    ensures var next := Reversed(p, files[e.file].note, Expected(e, d), Desired(e, d), Retrying(pending, e, d));
            Try(p, files, pending, e, d, trial) ==
            if next.None? then Tried(files, pending, false, true)
            else Took(files, files[e.file := File(files[e.file].path, next.value)], pending, e, d, trial)
  {
  }

  predicate SameTry(t: Tried, m: Tried, waiting: Waiting) {
    t.pending == m.pending && t.applied == m.applied && t.stopped == m.stopped && Mirrors(m.files, t.files, waiting)
  }

  lemma {:induction false} TookMirrors(settled: Files, settled': Files, files: Files, written: Files, pending: Pending, waiting: Waiting, e: Entry, d: Direction, trial: Trial)
    requires Mirrors(settled, files, waiting) && Mirrors(settled', written, waiting)
    ensures SameTry(Took(files, written, pending, e, d, trial), Took(settled, settled', pending, e, d, trial), waiting)
  {
  }

  lemma {:induction false} EditMirrors(p: Platform, settled: Files, files: Files, pending: Pending, waiting: Waiting, e: Entry, d: Direction, trial: Trial, w: World)
    requires Mirrors(settled, files, waiting) && TruthfulOf(files, waiting, e.file) && Proper(e) && Ready(w, e, d) && e.change.Edited?
    requires e.file in files && e.file in settled && GoodFiles(settled)
    requires View(settled) == w || Half(settled, pending, e, d, w)
    requires Retrying(pending, e, d) && Drafts(waiting, e.file) ==> Half(settled, pending, e, d, w)
    ensures SameTry(Try(p, files, pending, e, d, trial), Try(p, settled, pending, e, d, Mirrored(files, pending, e, d, trial)), waiting)
  {
    AcceptsReversed(p, files, pending, e, d);
    EditAccepted(p, settled, pending, e, d, w);
    TryTakes(p, files, pending, e, d, trial);
    TryTakes(p, settled, pending, e, d, Mirrored(files, pending, e, d, trial));
    if Accepts(files, pending, e, d) {
      if Drafts(waiting, e.file) { EntryAgrees(settled, files, pending, waiting, e, d, w); }
      MirrorWritten(settled, files, waiting, e, d);
      TookMirrors(settled, settled[e.file := File(settled[e.file].path, Restore(settled[e.file].note, Desired(e, d)))],
                  files, files[e.file := File(files[e.file].path, Restore(files[e.file].note, Desired(e, d)))], pending, waiting, e, d, trial);
    }
  }

  lemma {:induction false} MoveMirrors(p: Platform, settled: Files, files: Files, pending: Pending, waiting: Waiting, e: Entry, d: Direction, trial: Trial)
    requires Mirrors(settled, files, waiting) && e.change.Moved? && e.file in files && e.file in settled
    ensures SameTry(Try(p, files, pending, e, d, trial), Try(p, settled, pending, e, d, trial), waiting)
  {
    MirrorMoved(settled, files, waiting, e.file, Goal(e, d));
  }

  lemma {:induction false} TryMirrors(p: Platform, settled: Files, files: Files, pending: Pending, waiting: Waiting, e: Entry, d: Direction, trial: Trial, w: World)
    requires Mirrors(settled, files, waiting) && TruthfulOf(files, waiting, e.file) && Proper(e) && Ready(w, e, d)
    requires View(settled) == w || Half(settled, pending, e, d, w)
    requires Retrying(pending, e, d) && Drafts(waiting, e.file) ==> Half(settled, pending, e, d, w)
    ensures SameTry(Try(p, files, pending, e, d, trial), Try(p, settled, pending, e, d, Mirrored(files, pending, e, d, trial)), waiting)
  {
    MirrorAt(settled, files, waiting, e.file);
    assert e.file in View(settled);
    if e.change.Edited? { EditMirrors(p, settled, files, pending, waiting, e, d, trial, w); }
    else { MoveMirrors(p, settled, files, pending, waiting, e, d, trial); }
  }

  lemma {:induction false} EntryAgrees(settled: Files, files: Files, pending: Pending, waiting: Waiting, e: Entry, d: Direction, w: World)
    requires Mirrors(settled, files, waiting) && TruthfulOf(files, waiting, e.file) && Proper(e) && Ready(w, e, d) && e.change.Edited?
    requires View(settled) == w || Half(settled, pending, e, d, w)
    requires Drafts(waiting, e.file) && (Retrying(pending, e, d) ==> Half(settled, pending, e, d, w)) && Accepts(files, pending, e, d)
    ensures Agrees(waiting[e.file], Desired(e, d))
  {
    MirrorAt(settled, files, waiting, e.file);
    var note, u := files[e.file].note, waiting[e.file];
    SidesSame(e.change.before, e.change.after);
    MatchShows(note, u.after);
    MatchShows(note, Expected(e, d));
    MatchShows(note, Desired(e, d));
    GiveMatches(w[e.file].fields, Desired(e, d));
    AcceptedAgrees(FieldsOf(note), u, Expected(e, d), Desired(e, d), Retrying(pending, e, d));
  }

  // ----- the entries of a command

  predicate OnePerFile(command: Command) { forall i, j :: 0 <= i < j < |command| ==> command[i].file != command[j].file }

  /** Only the first entry may wait to be retried beside a drafted edit, when it is drafted itself. */
  predicate Unmixed(settled: Files, pending: Pending, waiting: Waiting, ordered: Command, d: Direction, w: World) {
    forall i :: 0 <= i < |ordered| && Retrying(pending, ordered[i], d) && Drafts(waiting, ordered[i].file) ==>
      i == 0 && Half(settled, pending, ordered[0], d, w)
  }

  predicate TruthfulFor(files: Files, waiting: Waiting, ordered: Command) {
    forall i :: 0 <= i < |ordered| ==> TruthfulOf(files, waiting, ordered[i].file)
  }

  predicate SameProgress(r: Progress, m: Progress, waiting: Waiting) {
    r.done == m.done && r.failed == m.failed && r.pending == m.pending && Mirrors(m.files, r.files, waiting)
  }

  predicate Reversible(ordered: Command, d: Direction, w: World) {
    ReadyAll(w, ordered, d) && OwnRefs(ordered) && OnePerFile(ordered) && forall i :: 0 <= i < |ordered| ==> Proper(ordered[i])
  }

  lemma {:induction false} RestReversible(ordered: Command, d: Direction, w: World)
    requires Reversible(ordered, d, w) && ordered != []
    ensures Proper(ordered[0]) && Ready(w, ordered[0], d) && Reversible(ordered[1..], d, Reverse(w, ordered[0], d))
    ensures ordered[0].ref !in Refs(ordered[1..]) && forall i :: 0 < i < |ordered| ==> ordered[i].file != ordered[0].file && ordered[i].ref != ordered[0].ref
  {
    forall i | 0 < i < |ordered| ensures ordered[i].ref in Refs(ordered[1..]) { assert ordered[1..][i - 1] == ordered[i]; }
  }

  lemma {:induction false} TryElsewhere(p: Platform, files: Files, pending: Pending, e: Entry, d: Direction, trial: Trial)
    ensures var t := Try(p, files, pending, e, d, trial);
            && (forall f :: f != e.file ==> (f in t.files <==> f in files) && (f in files ==> t.files[f] == files[f]))
            && (forall r :: r != e.ref ==> (r in t.pending <==> r in pending) && (r in pending ==> t.pending[r] == pending[r]))
  {
  }

  /** The attempt beside drafted edits, and the one without them, where each entry is
      refused that the notes refuse. */
  lemma {:induction false} AttemptMirrors(p: Platform, settled: Files, files: Files, pending: Pending, waiting: Waiting, ordered: Command,
                                          d: Direction, trials: Trials, w: World) returns (mirrored: Trials)
    requires Mirrors(settled, files, waiting) && TruthfulFor(files, waiting, ordered) && Reversible(ordered, d, w)
    requires At(settled, pending, ordered, d, w) && Unmixed(settled, pending, waiting, ordered, d, w)
    ensures SameProgress(Attempt(p, files, pending, ordered, d, trials), Attempt(p, settled, pending, ordered, d, mirrored), waiting)
    ensures forall r :: r !in Refs(ordered) ==> mirrored(r) == trials(r)
    decreases ordered
  {
    mirrored := trials;
    if ordered != [] {
      var e, trial := ordered[0], trials(ordered[0].ref);
      RestReversible(ordered, d, w);
      TryMirrors(p, settled, files, pending, waiting, e, d, trial, w);
      var t, m := Try(p, files, pending, e, d, trial), Try(p, settled, pending, e, d, Mirrored(files, pending, e, d, trial));
      if t.stopped {
        mirrored := Except(trials, e.ref, Mirrored(files, pending, e, d, trial));
        RefOf(ordered, 0);
        AttemptStops(p, files, pending, ordered, d, trials);
        AttemptStops(p, settled, pending, ordered, d, mirrored);
      } else {
        TryTracks(p, settled, pending, e, d, Mirrored(files, pending, e, d, trial), w);
        RestUnmixed(p, settled, m.files, files, pending, waiting, ordered, d, trial, w);
        mirrored := AttemptMirrors(p, m.files, t.files, t.pending, waiting, ordered[1..], d, trials, Reverse(w, e, d));
        RefsRest(ordered);
        MirrorsOn(p, settled, files, pending, waiting, ordered, d, trials, mirrored);
      }
    }
  }

  lemma {:induction false} MirrorsOn(p: Platform, settled: Files, files: Files, pending: Pending, waiting: Waiting, ordered: Command,
                                     d: Direction, trials: Trials, mirrored: Trials)
    requires ordered != [] && Proper(ordered[0]) && mirrored(ordered[0].ref) == trials(ordered[0].ref)
    requires var trial := trials(ordered[0].ref);
             var t, m := Try(p, files, pending, ordered[0], d, trial), Try(p, settled, pending, ordered[0], d, Mirrored(files, pending, ordered[0], d, trial));
             && !t.stopped && SameTry(t, m, waiting)
             && SameProgress(Attempt(p, t.files, t.pending, ordered[1..], d, trials), Attempt(p, m.files, m.pending, ordered[1..], d, mirrored), waiting)
    ensures SameProgress(Attempt(p, files, pending, ordered, d, trials), Attempt(p, settled, pending, ordered, d, mirrored), waiting)
  {
    MirroredSaved(p, files, pending, ordered[0], d, trials(ordered[0].ref));
    AttemptGoesOn(p, files, pending, ordered, d, trials);
    AttemptGoesOn(p, settled, pending, ordered, d, mirrored);
  }

  function Except(trials: Trials, ref: nat, trial: Trial): Trials { (r: nat) => if r == ref then trial else trials(r) }

  lemma {:induction false} RefsRest(ordered: Command)
    requires ordered != []
    ensures Refs(ordered[1..]) <= Refs(ordered)
  {
    assert ordered == [ordered[0]] + ordered[1..];
    RefsAppend([ordered[0]], ordered[1..]);
  }

  lemma {:induction false} AttemptStops(p: Platform, files: Files, pending: Pending, ordered: Command, d: Direction, trials: Trials)
    requires ordered != [] && Try(p, files, pending, ordered[0], d, trials(ordered[0].ref)).stopped
    ensures var t := Try(p, files, pending, ordered[0], d, trials(ordered[0].ref));
            Attempt(p, files, pending, ordered, d, trials) == Progress(t.files, t.pending, if t.applied then 1 else 0, true)
  {
  }

  lemma {:induction false} AttemptGoesOn(p: Platform, files: Files, pending: Pending, ordered: Command, d: Direction, trials: Trials)
    requires ordered != [] && !Try(p, files, pending, ordered[0], d, trials(ordered[0].ref)).stopped
    ensures var t := Try(p, files, pending, ordered[0], d, trials(ordered[0].ref));
            var rest := Attempt(p, t.files, t.pending, ordered[1..], d, trials);
            Attempt(p, files, pending, ordered, d, trials) == rest.(done := rest.done + 1)
  {
  }

  lemma {:induction false} RestUnmixed(p: Platform, settled: Files, settled': Files, files: Files, pending: Pending, waiting: Waiting, ordered: Command,
                                       d: Direction, trial: Trial, w: World)
    requires ordered != [] && Reversible(ordered, d, w) && TruthfulFor(files, waiting, ordered)
    requires Unmixed(settled, pending, waiting, ordered, d, w)
    ensures var t := Try(p, files, pending, ordered[0], d, trial);
            && TruthfulFor(t.files, waiting, ordered[1..])
            && Unmixed(settled', t.pending, waiting, ordered[1..], d, Reverse(w, ordered[0], d))
  {
    RestReversible(ordered, d, w);
    TryElsewhere(p, files, pending, ordered[0], d, trial);
    var rest, t := ordered[1..], Try(p, files, pending, ordered[0], d, trial);
    forall i | 0 <= i < |rest| ensures TruthfulOf(t.files, waiting, rest[i].file) && !(Retrying(t.pending, rest[i], d) && Drafts(waiting, rest[i].file)) {
      assert rest[i] == ordered[i + 1] && TruthfulOf(files, waiting, ordered[i + 1].file);
    }
  }

  lemma {:induction false} MirroredSaved(p: Platform, files: Files, pending: Pending, e: Entry, d: Direction, trial: Trial)
    requires Proper(e) && !Try(p, files, pending, e, d, trial).stopped
    ensures Mirrored(files, pending, e, d, trial) == trial
  {
    if e.change.Edited? { AcceptsReversed(p, files, pending, e, d); }
  }

  // ----- what a reversal does to the edits that wait

  /** No entry that the attempt gets to write makes its note show an edit that waits and is
      not drafted, or stop showing one that is. */
  predicate Steady(files: Files, pending: Pending, waiting: Waiting, ordered: Command, d: Direction, trials: Trials)
    decreases ordered
  {
    ordered == [] ||
    var e, trial := ordered[0], trials(ordered[0].ref);
    (Accepts(files, pending, e, d) ==>
      && (e.change.Edited? && (trial.Saved? || trial.Drafted?) && e.file in waiting ==>
            TruthfulAt(Restore(files[e.file].note, Desired(e, d)), waiting[e.file]))
      && (trial.Saved? ==> Steady(files, pending, waiting, ordered[1..], d, trials)))
  }

  predicate AlikeFor(files: Files, files': Files, pending: Pending, pending': Pending, ordered: Command) {
    forall i :: 0 <= i < |ordered| ==>
      && (ordered[i].file in files <==> ordered[i].file in files')
      && (ordered[i].file in files && ordered[i].file in files' ==> files'[ordered[i].file] == files[ordered[i].file])
      && (ordered[i].ref in pending <==> ordered[i].ref in pending')
      && (ordered[i].ref in pending && ordered[i].ref in pending' ==> pending'[ordered[i].ref] == pending[ordered[i].ref])
  }

  lemma {:induction false} SteadyAlike(files: Files, files': Files, pending: Pending, pending': Pending, waiting: Waiting, ordered: Command, d: Direction, trials: Trials)
    requires AlikeFor(files, files', pending, pending', ordered)
    ensures Steady(files, pending, waiting, ordered, d, trials) <==> Steady(files', pending', waiting, ordered, d, trials)
    decreases ordered
  {
    if ordered != [] {
      assert AlikeFor(files, files', pending, pending', ordered[1..]);
      SteadyAlike(files, files', pending, pending', waiting, ordered[1..], d, trials);
    }
  }

  lemma {:induction false} AttemptElsewhere(p: Platform, files: Files, pending: Pending, ordered: Command, d: Direction, trials: Trials, f: nat)
    requires forall i :: 0 <= i < |ordered| ==> ordered[i].file != f
    ensures var r := Attempt(p, files, pending, ordered, d, trials); (f in r.files <==> f in files) && (f in files ==> r.files[f] == files[f])
    decreases ordered
  {
    if ordered != [] {
      var t := Try(p, files, pending, ordered[0], d, trials(ordered[0].ref));
      TryElsewhere(p, files, pending, ordered[0], d, trials(ordered[0].ref));
      if !t.stopped { AttemptElsewhere(p, t.files, t.pending, ordered[1..], d, trials, f); }
    }
  }

  /** What one entry does to the edit that waits for its note. */
  predicate SteadyAt(files: Files, pending: Pending, waiting: Waiting, e: Entry, d: Direction, trial: Trial) {
    Accepts(files, pending, e, d) && e.change.Edited? && (trial.Saved? || trial.Drafted?) && e.file in waiting ==>
      TruthfulAt(Restore(files[e.file].note, Desired(e, d)), waiting[e.file])
  }

  lemma {:induction false} TryTruthful(p: Platform, files: Files, pending: Pending, waiting: Waiting, e: Entry, d: Direction, trial: Trial)
    requires Proper(e) && Truthful(files, waiting)
    ensures var t := Try(p, files, pending, e, d, trial);
            && (Truthful(t.files, waiting) <==> SteadyAt(files, pending, waiting, e, d, trial))
            && (!SteadyAt(files, pending, waiting, e, d, trial) ==> !TruthfulOf(t.files, waiting, e.file))
            && (t.stopped <==> !(Accepts(files, pending, e, d) && trial.Saved?))
  {
    if e.file in files && e.change.Edited? {
      AcceptsReversed(p, files, pending, e, d);
      TryTakes(p, files, pending, e, d, trial);
    }
    TryElsewhere(p, files, pending, e, d, trial);
    var t := Try(p, files, pending, e, d, trial);
    forall f | f in waiting && f in t.files && f != e.file ensures TruthfulAt(t.files[f].note, waiting[f]) { assert f in files; }
    if SteadyAt(files, pending, waiting, e, d, trial) && e.file in waiting && e.file in t.files {
      assert e.file in files && TruthfulAt(files[e.file].note, waiting[e.file]);
    }
  }

  /** The notes go on telling which edits are drafted exactly when the attempt is steady. */
  lemma {:induction false} AttemptTruthful(p: Platform, files: Files, pending: Pending, waiting: Waiting, ordered: Command, d: Direction, trials: Trials)
    requires Truthful(files, waiting) && OwnRefs(ordered) && OnePerFile(ordered) && forall i :: 0 <= i < |ordered| ==> Proper(ordered[i])
    ensures Truthful(Attempt(p, files, pending, ordered, d, trials).files, waiting) <==> Steady(files, pending, waiting, ordered, d, trials)
    decreases ordered
  {
    if ordered != [] {
      var e, rest, trial := ordered[0], ordered[1..], trials(ordered[0].ref);
      var t := Try(p, files, pending, e, d, trial);
      TryTruthful(p, files, pending, waiting, e, d, trial);
      if t.stopped { AttemptStops(p, files, pending, ordered, d, trials); }
      else {
        AttemptGoesOn(p, files, pending, ordered, d, trials);
        RestAlike(p, files, pending, ordered, d, trial);
        if SteadyAt(files, pending, waiting, e, d, trial) {
          AttemptTruthful(p, t.files, t.pending, waiting, rest, d, trials);
          SteadyAlike(files, t.files, pending, t.pending, waiting, rest, d, trials);
        } else {
          AttemptElsewhere(p, t.files, t.pending, rest, d, trials, e.file);
        }
      }
    }
  }

  lemma {:induction false} RestAlike(p: Platform, files: Files, pending: Pending, ordered: Command, d: Direction, trial: Trial)
    requires ordered != [] && OwnRefs(ordered) && OnePerFile(ordered)
    ensures var t := Try(p, files, pending, ordered[0], d, trial); AlikeFor(files, t.files, pending, t.pending, ordered[1..])
    ensures forall i :: 0 <= i < |ordered[1..]| ==> ordered[1..][i].file != ordered[0].file
  {
    TryElsewhere(p, files, pending, ordered[0], d, trial);
    forall i | 0 <= i < |ordered[1..]| ensures ordered[1..][i].ref != ordered[0].ref { assert ordered[1..][i].ref in Refs(ordered[1..]); }
  }
}
