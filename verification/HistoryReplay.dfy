/** What undo and redo do to the vault, when commands fail part of the way. */
module HistoryReplay {
  import opened Platforms
  import opened PropertyStates
  import opened CommandHistory

  type Files = map<nat, File>
  type Pending = map<nat, Direction>

  /** How the host takes one reversal: saved; refused before the draft changed,
      perhaps after the direction was noted; left in the draft by a failed save;
      or, for a rename, done but with a failure after it. */
  datatype Trial = Saved | Refused(noted: bool) | Drafted | Committed

  datatype Tried = Tried(files: Files, pending: Pending, applied: bool, stopped: bool)

  predicate Retrying(pending: Pending, e: Entry, d: Direction) { e.ref in pending && pending[e.ref] == d }

  /** One turn of the loop of `applyHistory`. */
  function Try(p: Platform, files: Files, pending: Pending, e: Entry, d: Direction, trial: Trial): Tried {
    if e.file !in files then Tried(files, pending, false, true)
    else
      var file := files[e.file];
      match e.change
      case Edited(_, _) =>
        var next := Reversed(p, file.note, Expected(e, d), Desired(e, d), Retrying(pending, e, d));
        if next.None? then Tried(files, pending, false, true)
        else
          var written := files[e.file := File(file.path, next.value)];
          (match trial
           case Saved => Tried(written, pending - {e.ref}, true, false)
           case Drafted => Tried(written, pending[e.ref := d], false, true)
           case Refused(noted) => Tried(files, if noted then pending[e.ref := d] else pending, false, true)
           case Committed => Tried(files, pending, false, true))
      case Moved(_, _) =>
        var renamed := files[e.file := File(Goal(e, d), file.note)];
        (match trial
         case Saved => Tried(renamed, pending - {e.ref}, true, false)
         case Committed => Tried(renamed, pending - {e.ref}, true, true)
         case _ => Tried(files, pending, false, true))
  }

  datatype Progress = Progress(files: Files, pending: Pending, done: nat, failed: bool)

  type Trials = nat -> Trial

  function Attempt(p: Platform, files: Files, pending: Pending, ordered: seq<Entry>, d: Direction, trials: Trials): (r: Progress)
    ensures r.done <= |ordered|
    decreases ordered
  {
    if ordered == [] then Progress(files, pending, 0, false)
    else
      var t := Try(p, files, pending, ordered[0], d, trials(ordered[0].ref));
      if t.stopped then Progress(t.files, t.pending, if t.applied then 1 else 0, true)
      else
        var rest := Attempt(p, t.files, t.pending, ordered[1..], d, trials);
        rest.(done := rest.done + 1)
  }

  predicate GoodFiles(files: Files) { forall f :: f in files ==> Distinct(files[f].note) }

  // ----- one entry

  /** The entry has been reversed in the draft of its note, but not yet saved. */
  predicate Half(files: Files, pending: Pending, e: Entry, d: Direction, w: World) {
    e.change.Edited? && Retrying(pending, e, d) && View(files) == Reverse(w, e, d)
  }

  lemma {:induction false} GiveTwice(fields: Fields, states: seq<PropertyState>)
    requires Coherent(states)
    ensures Give(Give(fields, states), states) == Give(fields, states)
  {
    var once := Give(fields, states);
    GiveMatches(fields, states);
    forall key ensures Get(Give(once, states), key) == Get(once, key) {
      GiveLooks(once, states, key);
      SidedValue(states, key, Get(once, key));
    }
    FieldsSame(Give(once, states), once);
  }

  lemma {:induction false} ViewEdit(files: Files, e: Entry, d: Direction)
    requires GoodFiles(files) && e.file in files && e.change.Edited?
    ensures var file := files[e.file];
            var written := files[e.file := File(file.path, Restore(file.note, Desired(e, d)))];
            GoodFiles(written) && View(written) == Reverse(View(files), e, d)
  {
    var file := files[e.file];
    FieldsRestore(file.note, Desired(e, d));
    RestoreLooks(file.note, Desired(e, d), "");
  }

  lemma {:induction false} ViewMove(files: Files, e: Entry, d: Direction)
    requires GoodFiles(files) && e.file in files && e.change.Moved?
    ensures var renamed := files[e.file := File(Goal(e, d), files[e.file].note)];
            GoodFiles(renamed) && View(renamed) == Reverse(View(files), e, d)
  {
  }

  lemma {:induction false} EditAccepted(p: Platform, files: Files, pending: Pending, e: Entry, d: Direction, w: World)
    requires GoodFiles(files) && Proper(e) && Ready(w, e, d) && e.change.Edited?
    requires View(files) == w || Half(files, pending, e, d, w)
    ensures e.file in files
    ensures Reversed(p, files[e.file].note, Expected(e, d), Desired(e, d), Retrying(pending, e, d))
         == Some(Restore(files[e.file].note, Desired(e, d)))
  {
    assert e.file in View(files);
    var note, here, there := files[e.file].note, Expected(e, d), Desired(e, d);
    SidesSame(e.change.before, e.change.after);
    assert View(files)[e.file].fields == FieldsOf(note);
    MatchShows(note, here);
    MatchShows(note, there);
    ReversedWhenExpected(p, note, here, there, Retrying(pending, e, d));
    GiveMatches(w[e.file].fields, there);
  }

  lemma {:induction false} ReverseTwice(w: World, e: Entry, d: Direction)
    requires Proper(e) && e.change.Edited? && e.file in w
    ensures Reverse(Reverse(w, e, d), e, d) == Reverse(w, e, d)
  {
    SidesSame(e.change.before, e.change.after);
    GiveTwice(w[e.file].fields, Desired(e, d));
  }

  /** Where the world is as the entry left it, the reversal is never turned down,
      and a failed one has changed nothing or can be retried. */
  lemma {:induction false} TryTracks(p: Platform, files: Files, pending: Pending, e: Entry, d: Direction, trial: Trial, w: World)
    requires GoodFiles(files) && Proper(e) && Ready(w, e, d)
    requires View(files) == w || Half(files, pending, e, d, w)
    ensures var t := Try(p, files, pending, e, d, trial);
            && GoodFiles(t.files)
            && (trial.Saved? ==> t.applied && !t.stopped)
            && (t.applied ==> View(t.files) == Reverse(w, e, d))
            && (!t.applied ==> t.stopped && (View(t.files) == w || Half(t.files, t.pending, e, d, w)))
  {
    if e.change.Edited? {
      EditAccepted(p, files, pending, e, d, w);
      ReverseTwice(w, e, d);
      ViewEdit(files, e, d);
    } else {
      assert e.file in View(files);
      ViewMove(files, e, d);
    }
  }

  // ----- the entries of a command

  predicate At(files: Files, pending: Pending, ordered: seq<Entry>, d: Direction, w: World) {
    View(files) == w || (ordered != [] && Half(files, pending, ordered[0], d, w))
  }

  lemma {:induction false} AttemptTracks(p: Platform, files: Files, pending: Pending, ordered: seq<Entry>, d: Direction, trials: Trials, w: World)
    requires GoodFiles(files) && ReadyAll(w, ordered, d) && forall i :: 0 <= i < |ordered| ==> Proper(ordered[i])
    requires At(files, pending, ordered, d, w)
    ensures var r := Attempt(p, files, pending, ordered, d, trials);
            && GoodFiles(r.files)
            && At(r.files, r.pending, ordered[r.done..], d, Reversals(w, ordered[..r.done], d))
            && (!r.failed ==> r.done == |ordered|)
    decreases ordered
  {
    var r := Attempt(p, files, pending, ordered, d, trials);
    if ordered != [] {
      var e := ordered[0];
      TryTracks(p, files, pending, e, d, trials(e.ref), w);
      var t := Try(p, files, pending, e, d, trials(e.ref));
      ReversalsOne(w, e, d);
      if t.stopped {
        Prefixes(ordered);
      } else {
        AttemptTracks(p, t.files, t.pending, ordered[1..], d, trials, Reverse(w, e, d));
        PrefixMoves(ordered, r.done);
      }
    } else {
      assert ordered[..0] == [] && ordered[0..] == [];
    }
  }

  lemma {:induction false} SavedSucceeds(p: Platform, files: Files, pending: Pending, ordered: seq<Entry>, d: Direction, trials: Trials, w: World)
    requires GoodFiles(files) && ReadyAll(w, ordered, d) && forall i :: 0 <= i < |ordered| ==> Proper(ordered[i])
    requires At(files, pending, ordered, d, w)
    requires forall i :: 0 <= i < |ordered| ==> trials(ordered[i].ref).Saved?
    ensures !Attempt(p, files, pending, ordered, d, trials).failed
    decreases ordered
  {
    if ordered != [] {
      var e := ordered[0];
      TryTracks(p, files, pending, e, d, trials(e.ref), w);
      var t := Try(p, files, pending, e, d, trials(e.ref));
      SavedSucceeds(p, t.files, t.pending, ordered[1..], d, trials, Reverse(w, e, d));
    }
  }

  lemma {:induction false} Prefixes(ordered: seq<Entry>)
    requires ordered != []
    ensures ordered[..1] == [ordered[0]] && ordered[..0] == [] && ordered[0..] == ordered
  {
  }

  lemma {:induction false} PrefixMoves(ordered: seq<Entry>, k: nat)
    requires 0 < k <= |ordered|
    ensures ordered[..k][0] == ordered[0] && ordered[..k][1..] == ordered[1..][..k - 1]
    ensures ordered[1..][k - 1..] == ordered[k..]
  {
  }

  // ----- the invariant

  predicate GoodStacks(h: Stacks) {
    && NoneEmpty(h.undo) && NoneEmpty(h.redo)
    && (forall i :: 0 <= i < |Timeline(h)| ==> Proper(Timeline(h)[i]))
  }

  /** The entry that undo, or redo, would reverse first. */
  function Upcoming(h: Stacks, d: Direction): Entry
    requires GoodStacks(h) && Source(h, d) != []
  {
    var top := Source(h, d)[|Source(h, d)| - 1];
    if d.Undo? then top[|top| - 1] else top[0]
  }

  /** The world at the present of the timeline that starts at `base`. */
  function Present(base: World, h: Stacks): World { Reversals(base, Flat(h.undo), Redo) }

  /** The timeline can be carried out from `base`, and the notes say what carrying
      out the undo stack yields; or one upcoming entry is reversed in its draft. */
  predicate Follows(base: World, h: Stacks, files: Files, pending: Pending, half: Option<Direction>) {
    && GoodStacks(h) && GoodFiles(files)
    && ReadyAll(base, Timeline(h), Redo)
    && (match half
        case None => View(files) == Present(base, h)
        case Some(d) => Source(h, d) != [] && Half(files, pending, Upcoming(h, d), d, Present(base, h)))
  }

  function Ordered(h: Stacks, d: Direction): seq<Entry>
    requires Source(h, d) != []
  {
    var command := Source(h, d)[|Source(h, d)| - 1];
    if d.Undo? then Backwards(command) else command
  }

  lemma {:induction false} FlatTop(stack: seq<Command>)
    requires stack != []
    ensures Flat(stack) == Flat(stack[..|stack| - 1]) + stack[|stack| - 1]
    ensures Ahead(stack) == stack[|stack| - 1] + Ahead(stack[..|stack| - 1])
  {
  }

  lemma {:induction false} BackwardsTail(es: seq<Entry>, k: nat)
    requires k <= |es|
    ensures Backwards(es)[..k] == Backwards(es[|es| - k..])
  {
    forall i | 0 <= i < k ensures Backwards(es)[i] == Backwards(es[|es| - k..])[i] {
      BackwardsAt(es, i);
      BackwardsAt(es[|es| - k..], i);
    }
  }

  lemma {:induction false} ProperTail(h: Stacks, tail: seq<Entry>)
    requires GoodStacks(h) && |tail| <= |Flat(h.undo)| && tail == Flat(h.undo)[|Flat(h.undo)| - |tail|..]
    ensures forall i :: 0 <= i < |tail| ==> Proper(tail[i])
  {
    forall i | 0 <= i < |tail| ensures Proper(tail[i]) {
      assert tail[i] == Timeline(h)[|Flat(h.undo)| - |tail| + i];
    }
  }

  lemma {:induction false} UndoTail(h: Stacks, k: nat)
    requires h.undo != [] && k <= |h.undo[|h.undo| - 1]|
    ensures var command := h.undo[|h.undo| - 1];
            var tail := command[|command| - k..];
            && Flat(h.undo) == Flat(h.undo)[..|Flat(h.undo)| - k] + tail
            && tail == Flat(h.undo)[|Flat(h.undo)| - k..]
  {
    FlatTop(h.undo);
  }

  lemma {:induction false} RedoHead(h: Stacks, k: nat)
    requires h.redo != [] && k <= |h.redo[|h.redo| - 1]|
    ensures var command := h.redo[|h.redo| - 1];
            Ahead(h.redo)[..k] == command[..k] && Ahead(h.redo) == command[..k] + Ahead(h.redo)[k..]
  {
    FlatTop(h.redo);
  }

  lemma {:induction false} UndoReady(base: World, h: Stacks, k: nat)
    requires GoodStacks(h) && h.undo != [] && ReadyAll(base, Flat(h.undo), Redo) && k <= |Ordered(h, Undo)|
    ensures ReadyAll(Present(base, h), Ordered(h, Undo)[..k], Undo)
    ensures Reversals(Present(base, h), Ordered(h, Undo)[..k], Undo) == Present(base, Publish(h, Undo, k))
  {
    var command := h.undo[|h.undo| - 1];
    var published, tail := Publish(h, Undo, k), command[|command| - k..];
    TimelineFixed(h, Undo, k);
    UndoTail(h, k);
    BackwardsTail(command, k);
    ReversalsAppend(base, Flat(published.undo), tail, Redo);
    ProperTail(h, tail);
    UndoneBackwards(Present(base, published), tail, Redo);
  }

  lemma {:induction false} RedoReady(base: World, h: Stacks, k: nat)
    requires GoodStacks(h) && h.redo != [] && ReadyAll(Present(base, h), Ahead(h.redo), Redo) && k <= |Ordered(h, Redo)|
    ensures ReadyAll(Present(base, h), Ordered(h, Redo)[..k], Redo)
    ensures Reversals(Present(base, h), Ordered(h, Redo)[..k], Redo) == Present(base, Publish(h, Redo, k))
  {
    var command := h.redo[|h.redo| - 1];
    TimelineFixed(h, Redo, k);
    RedoHead(h, k);
    ReversalsAppend(Present(base, h), command[..k], Ahead(h.redo)[k..], Redo);
    ReversalsAppend(base, Flat(h.undo), command[..k], Redo);
  }

  /** The command can be reversed from the present, entry by entry, and after `k`
      of them the world is the present of the published stacks. */
  lemma {:induction false} OrderedReady(base: World, h: Stacks, d: Direction, k: nat)
    requires GoodStacks(h) && Source(h, d) != [] && ReadyAll(base, Timeline(h), Redo)
    requires k <= |Ordered(h, d)|
    ensures ReadyAll(Present(base, h), Ordered(h, d)[..k], d)
    ensures Reversals(Present(base, h), Ordered(h, d)[..k], d) == Present(base, Publish(h, d, k))
  {
    ReversalsAppend(base, Flat(h.undo), Ahead(h.redo), Redo);
    if d.Undo? { UndoReady(base, h, k); } else { RedoReady(base, h, k); }
  }

  lemma {:induction false} OrderedProper(h: Stacks, d: Direction)
    requires GoodStacks(h) && Source(h, d) != []
    ensures forall i :: 0 <= i < |Ordered(h, d)| ==> Proper(Ordered(h, d)[i])
  {
    FlatTop(Source(h, d));
    var stack := Source(h, d);
    var command := stack[|stack| - 1];
    forall i | 0 <= i < |command| ensures Proper(command[i]) {
      if d.Undo? { assert command[i] == Timeline(h)[|Flat(stack[..|stack| - 1])| + i]; }
      else { assert command[i] == Timeline(h)[|Flat(h.undo)| + i]; }
    }
    forall i | 0 <= i < |command| ensures Proper(Backwards(command)[i]) { BackwardsAt(command, i); }
  }

  predicate NoneEmpty(stack: seq<Command>) { forall i :: 0 <= i < |stack| ==> stack[i] != [] }

  lemma {:induction false} ShrunkGood(stack: seq<Command>, rest: Command)
    requires stack != [] && NoneEmpty(stack)
    ensures NoneEmpty(Shrunk(stack, rest))
  {
  }

  lemma {:induction false} GrownGood(stack: seq<Command>, applied: Command)
    requires NoneEmpty(stack)
    ensures NoneEmpty(Grown(stack, applied))
  {
  }

  lemma {:induction false} PublishGood(h: Stacks, d: Direction, k: nat)
    requires GoodStacks(h) && Source(h, d) != [] && k <= |Ordered(h, d)|
    ensures GoodStacks(Publish(h, d, k))
  {
    var command := Source(h, d)[|Source(h, d)| - 1];
    var n := |command|;
    TimelineFixed(h, d, k);
    if d.Undo? {
      ShrunkGood(h.undo, command[..n - k]);
      GrownGood(h.redo, command[n - k..]);
    } else {
      ShrunkGood(h.redo, command[k..]);
      GrownGood(h.undo, command[..k]);
    }
  }

  lemma {:induction false} PublishNext(h: Stacks, d: Direction, k: nat)
    requires GoodStacks(h) && Source(h, d) != [] && k < |Ordered(h, d)| && GoodStacks(Publish(h, d, k))
    ensures Source(Publish(h, d, k), d) != [] && Upcoming(Publish(h, d, k), d) == Ordered(h, d)[k]
  {
    if d.Undo? { BackwardsAt(h.undo[|h.undo| - 1], k); }
  }

  lemma {:induction false} StartsAt(base: World, h: Stacks, files: Files, pending: Pending, half: Option<Direction>, d: Direction)
    requires Follows(base, h, files, pending, half) && half in {None, Some(d)} && Source(h, d) != []
    ensures At(files, pending, Ordered(h, d), d, Present(base, h))
  {
    if half.Some? { PublishNext(h, d, 0); }
  }

  lemma {:induction false} LandsAt(base: World, h: Stacks, files: Files, pending: Pending, d: Direction, k: nat) returns (half: Option<Direction>)
    requires GoodStacks(h) && Source(h, d) != [] && ReadyAll(base, Timeline(h), Redo) && k <= |Ordered(h, d)|
    requires GoodFiles(files) && At(files, pending, Ordered(h, d)[k..], d, Present(base, Publish(h, d, k)))
    ensures Follows(base, Publish(h, d, k), files, pending, half) && half in {None, Some(d)}
    ensures k == |Ordered(h, d)| ==> half == None
  {
    TimelineFixed(h, d, k);
    PublishGood(h, d, k);
    if k < |Ordered(h, d)| { PublishNext(h, d, k); }
    half := if View(files) == Present(base, Publish(h, d, k)) then None else Some(d);
  }

  /** Undo and redo, failing where they may: the notes follow the stacks. Only a
      reversal whose save failed must be retried before another command. */
  lemma {:induction false} HistoryFollows(p: Platform, base: World, h: Stacks, files: Files, pending: Pending, half: Option<Direction>,
                       d: Direction, trials: Trials)
    returns (half': Option<Direction>)
    requires Follows(base, h, files, pending, half) && half in {None, Some(d)} && Source(h, d) != []
    ensures var r := Attempt(p, files, pending, Ordered(h, d), d, trials);
            && Follows(base, Publish(h, d, r.done), r.files, r.pending, half') && half' in {None, Some(d)}
            && (!r.failed ==> r.done == |Ordered(h, d)| && half' == None)
            && ((forall i :: 0 <= i < |Ordered(h, d)| ==> trials(Ordered(h, d)[i].ref).Saved?) ==> !r.failed)
  {
    var ordered := Ordered(h, d);
    OrderedProper(h, d);
    OrderedReady(base, h, d, |ordered|);
    assert ordered[..|ordered|] == ordered;
    StartsAt(base, h, files, pending, half, d);
    AttemptTracks(p, files, pending, ordered, d, trials, Present(base, h));
    if forall i :: 0 <= i < |ordered| ==> trials(ordered[i].ref).Saved? {
      SavedSucceeds(p, files, pending, ordered, d, trials, Present(base, h));
    }
    var r := Attempt(p, files, pending, ordered, d, trials);
    OrderedReady(base, h, d, r.done);
    half' := LandsAt(base, h, r.files, r.pending, d, r.done);
  }

  // ----- new commands

  const MAX_COMMANDS: nat := 100

  /** `recordHistory`. */
  function Record(h: Stacks, entries: Command): Stacks {
    if entries == [] then h
    else
      var undo := h.undo + [entries];
      Stacks(if |undo| > MAX_COMMANDS then undo[1..] else undo, [])
  }

  /** The start of the timeline moves past a command that is dropped. */
  function Rebased(base: World, h: Stacks, entries: Command): World {
    if entries != [] && |h.undo| + 1 > MAX_COMMANDS then Reversals(base, h.undo[0], Redo) else base
  }

  lemma {:induction false} FlatFirst(stack: seq<Command>)
    requires stack != []
    ensures Flat(stack) == stack[0] + Flat(stack[1..])
    decreases stack
  {
    if |stack| > 1 {
      var below := stack[..|stack| - 1];
      FlatFirst(below);
      assert below[1..] == stack[1..][..|stack| - 2];
      assert stack[0] + (Flat(below[1..]) + stack[|stack| - 1]) == (stack[0] + Flat(below[1..])) + stack[|stack| - 1];
    } else {
      assert stack[..0] == [] && stack[1..] == [];
    }
  }

  /** Dropping the oldest command moves the start of the timeline past it. */
  lemma {:induction false} DropOldest(base: World, h: Stacks, files: Files, pending: Pending)
    requires Follows(base, h, files, pending, None) && h.undo != []
    ensures Follows(Reversals(base, h.undo[0], Redo), Stacks(h.undo[1..], h.redo), files, pending, None)
  {
    var first, rest := h.undo[0], Flat(h.undo[1..]);
    FlatFirst(h.undo);
    assert Timeline(h) == first + (rest + Ahead(h.redo));
    ReversalsAppend(base, first, rest + Ahead(h.redo), Redo);
    ReversalsAppend(base, first, rest, Redo);
    var h' := Stacks(h.undo[1..], h.redo);
    assert Timeline(h') == rest + Ahead(h.redo);
    forall i | 0 <= i < |Timeline(h')| ensures Proper(Timeline(h')[i]) {
      assert Timeline(h')[i] == Timeline(h)[|first| + i];
    }
  }

  lemma {:induction false} Extended(base: World, h: Stacks, files: Files, pending: Pending, entries: Command, files': Files)
    requires Follows(base, h, files, pending, None) && GoodFiles(files') && entries != []
    requires ReadyAll(View(files), entries, Redo) && View(files') == Reversals(View(files), entries, Redo)
    requires forall i :: 0 <= i < |entries| ==> Proper(entries[i])
    ensures Follows(base, Stacks(h.undo + [entries], []), files', pending, None)
  {
    var h' := Stacks(h.undo + [entries], []);
    ReversalsAppend(base, Flat(h.undo), Ahead(h.redo), Redo);
    FlatTop(h'.undo);
    assert h'.undo[..|h'.undo| - 1] == h.undo;
    ReversalsAppend(base, Flat(h.undo), entries, Redo);
    assert Timeline(h') == Flat(h.undo) + entries;
    forall i | 0 <= i < |Timeline(h')| ensures Proper(Timeline(h')[i]) {
      if i < |Flat(h.undo)| { assert Timeline(h')[i] == Timeline(h)[i]; }
    }
  }

  /** Recording what has just been carried out. */
  lemma {:induction false} RecordFollows(base: World, h: Stacks, files: Files, pending: Pending, entries: Command, files': Files)
    requires Follows(base, h, files, pending, None) && GoodFiles(files')
    requires ReadyAll(View(files), entries, Redo) && View(files') == Reversals(View(files), entries, Redo)
    requires forall i :: 0 <= i < |entries| ==> Proper(entries[i])
    ensures Follows(Rebased(base, h, entries), Record(h, entries), files', pending, None)
  {
    if entries != [] {
      Extended(base, h, files, pending, entries, files');
      var longer := Stacks(h.undo + [entries], []);
      if |longer.undo| > MAX_COMMANDS {
        DropOldest(base, longer, files', pending);
        assert longer.undo[0] == h.undo[0];
      }
    }
  }

  /** With no failures, undo and redo are each other's inverse on stacks and vault. */
  lemma {:induction false} UndoThenRedo(p: Platform, base: World, h: Stacks, files: Files, pending: Pending, d: Direction, trials: Trials)
    returns (there: Stacks, r: Progress, s: Progress)
    requires Follows(base, h, files, pending, None) && Source(h, d) != [] && forall ref :: trials(ref).Saved?
    ensures there == Publish(h, d, |Ordered(h, d)|) && Source(there, Opposite(d)) != []
    ensures r == Attempt(p, files, pending, Ordered(h, d), d, trials) && !r.failed
    ensures s == Attempt(p, r.files, r.pending, Ordered(there, Opposite(d)), Opposite(d), trials) && !s.failed
    ensures Publish(there, Opposite(d), |Ordered(there, Opposite(d))|) == h && View(s.files) == View(files)
  {
    PublishBack(h, d);
    there, r := AllTheWay(p, base, h, files, pending, d, trials);
    var back;
    back, s := AllTheWay(p, base, there, r.files, r.pending, Opposite(d), trials);
  }

  lemma {:induction false} AllTheWay(p: Platform, base: World, h: Stacks, files: Files, pending: Pending, d: Direction, trials: Trials)
    returns (there: Stacks, r: Progress)
    requires Follows(base, h, files, pending, None) && Source(h, d) != [] && forall ref :: trials(ref).Saved?
    ensures there == Publish(h, d, |Ordered(h, d)|)
    ensures r == Attempt(p, files, pending, Ordered(h, d), d, trials) && !r.failed
    ensures Follows(base, there, r.files, r.pending, None)
  {
    there := Publish(h, d, |Ordered(h, d)|);
    var half := HistoryFollows(p, base, h, files, pending, None, d, trials);
    r := Attempt(p, files, pending, Ordered(h, d), d, trials);
  }

  lemma {:induction false} BackwardsTwice(es: seq<Entry>)
    ensures Backwards(Backwards(es)) == es
  {
    forall i | 0 <= i < |es| ensures Backwards(Backwards(es))[i] == es[i] {
      BackwardsAt(Backwards(es), i);
      BackwardsAt(es, |es| - 1 - i);
    }
  }

  lemma {:induction false} PublishBack(h: Stacks, d: Direction)
    requires GoodStacks(h) && Source(h, d) != []
    ensures var there := Publish(h, d, |Ordered(h, d)|);
            && Source(there, Opposite(d)) != [] && Ordered(there, Opposite(d)) == Backwards(Ordered(h, d))
            && Publish(there, Opposite(d), |Ordered(h, d)|) == h
  {
    var stack := Source(h, d);
    var command := stack[|stack| - 1];
    BackwardsTwice(command);
    assert command[..|command|] == command && command[|command| - |command|..] == command && command[|command|..] == [];
    assert stack[..|stack| - 1] + [] == stack[..|stack| - 1];
    assert stack[..|stack| - 1] + [command] == stack;
    var there := Publish(h, d, |command|);
    var other := Source(there, Opposite(d));
    assert other[..|other| - 1] == Source(h, Opposite(d)) && other[..|other| - 1] + [] == other[..|other| - 1];
  }
}
