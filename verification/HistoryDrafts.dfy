/** What follows a reversal whose save failed: exactly which commands keep notes and
    history in step. */
module HistoryDrafts {
  import opened Platforms
  import opened PropertyStates
  import opened CommandHistory
  import opened HistoryReplay
  import opened HistoryCommands

  // ----- worlds that entries cannot tell apart

  /** The same entries lead from different worlds to different worlds. */
  lemma {:induction false} ReversalsApart(a: World, b: World, es: seq<Entry>, d: Direction)
    requires ReadyAll(a, es, d) && ReadyAll(b, es, d) && forall i :: 0 <= i < |es| ==> Proper(es[i])
    requires Reversals(a, es, d) == Reversals(b, es, d)
    ensures a == b
  {
    UndoneBackwards(a, es, d);
    UndoneBackwards(b, es, d);
  }

  lemma {:induction false} MatchBoth(a: Fields, b: Fields, here: seq<PropertyState>, there: seq<PropertyState>)
    requires Sides(here, there) && Match(a, here) && Match(b, here) && Match(b, there)
    ensures Match(a, there)
  {
    SidesSame(here, there);
  }

  /** If an entry leads from one world to another, and could be reversed in both, it
      changes nothing. */
  lemma {:induction false} ReversedSame(a: World, b: World, e: Entry, d: Direction)
    requires Proper(e) && Ready(a, e, d) && Ready(b, e, d) && Reverse(a, e, d) == b
    ensures a == b
  {
    if e.change.Edited? {
      SidesSame(e.change.before, e.change.after);
      GiveMatches(a[e.file].fields, Desired(e, d));
      assert b[e.file].fields == Give(a[e.file].fields, Desired(e, d));
      MatchBoth(a[e.file].fields, b[e.file].fields, Expected(e, d), Desired(e, d));
      GiveIdle(a[e.file].fields, Desired(e, d));
    }
    assert a[e.file] == b[e.file];
  }

  lemma {:induction false} ReverseApart(a: World, b: World, e: Entry, d: Direction)
    requires Proper(e) && Ready(a, e, d) && Ready(b, e, d) && Reverse(a, e, d) == Reverse(b, e, d)
    ensures a == b
  {
    ReverseBack(a, e, d);
    ReverseBack(b, e, d);
  }

  // ----- recording after a draft

  lemma {:induction false} PresentRecorded(base: World, h: Stacks, entries: Command)
    requires entries != []
    ensures Present(Rebased(base, h, entries), Record(h, entries)) == Reversals(Present(base, h), entries, Redo)
    ensures ReadyAll(Rebased(base, h, entries), Timeline(Record(h, entries)), Redo) ==> ReadyAll(Present(base, h), entries, Redo)
  {
    var undo := h.undo + [entries];
    FlatTop(undo);
    assert undo[..|h.undo|] == h.undo;
    ReversalsAppend(base, Flat(h.undo), entries, Redo);
    if |undo| > MAX_COMMANDS {
      var rest := undo[1..];
      FlatTop(rest);
      assert rest[..|rest| - 1] == h.undo[1..] && rest[|rest| - 1] == entries;
      FlatFirst(h.undo);
      ReversalsAppend(base, h.undo[0], Flat(h.undo[1..]), Redo);
      ReversalsAppend(Reversals(base, h.undo[0], Redo), Flat(h.undo[1..]), entries, Redo);
      assert Flat(rest) + [] == Flat(rest);
    } else {
      assert Flat(undo) + [] == Flat(undo);
    }
  }

  lemma {:induction false} LastRecorded(h: Stacks, entries: Command)
    requires entries != []
    ensures Record(h, entries).redo == [] && Record(h, entries).undo != []
    ensures Record(h, entries).undo[|Record(h, entries).undo| - 1] == entries
  {
  }

  lemma {:induction false} NothingRecordedIsDrafted(t: Situation, h: Stacks, entries: Command, half: Option<Direction>)
    requires entries != [] && t.stacks == Record(h, entries) && Refs(entries) !! t.pending.Keys && FollowsAs(t, half)
    ensures half == None
  {
    LastRecorded(h, entries);
    RefOf(entries, |entries| - 1);
  }

  /** Once a draft differs, a command that records anything puts the notes out of step. */
  lemma {:induction false} EditAfterDraft(p: Platform, s: Situation, t: Situation, entries: Command)
    requires Following(s) && !InStep(s) && Happens(s, t, p, Recorded(entries))
    ensures Following(t) <==> entries == []
  {
    if entries == [] { CommandFollows(p, s, t, Recorded(entries)); }
    else if half :| FollowsAs(t, half) {
      PresentRecorded(s.base, s.stacks, entries);
      NothingRecordedIsDrafted(t, s.stacks, entries, half);
      ReversalsApart(Present(s.base, s.stacks), View(s.files), entries, Redo);
    }
  }

  // ----- the other direction after a draft

  predicate SamePlaces(a: World, b: World) { a.Keys == b.Keys && forall f :: f in a ==> a[f].path == b[f].path }

  /** One reversal where nothing is retried: it is the entry's own, or none. */
  lemma {:induction false} TryReverses(p: Platform, files: Files, pending: Pending, e: Entry, d: Direction, trial: Trial, at: World)
    requires GoodFiles(files) && Proper(e) && !Retrying(pending, e, d) && Ready(at, e, d) && SamePlaces(View(files), at)
    ensures var t := Try(p, files, pending, e, d, trial);
            var w := View(files);
            && GoodFiles(t.files)
            && (t.applied ==> Ready(w, e, d) && View(t.files) == Reverse(w, e, d) && t.pending == pending - {e.ref})
            && (!t.applied ==> t.stopped && (t.pending == pending || (t.pending == pending[e.ref := d] && Ready(w, e, d)))
                               && (View(t.files) == w || (Ready(w, e, d) && View(t.files) == Reverse(w, e, d))))
  {
    assert e.file in View(files);
    if e.change.Edited? {
      var note := files[e.file].note;
      SidesSame(e.change.before, e.change.after);
      ReversedWhenExpected(p, note, Expected(e, d), Desired(e, d), false);
      MatchShows(note, Expected(e, d));
      assert View(files)[e.file].fields == FieldsOf(note);
      ViewEdit(files, e, d);
    } else {
      ViewMove(files, e, d);
    }
  }

  /** How far an attempt got from the world `w`, and what it noted. */
  predicate Landed(r: Progress, ordered: seq<Entry>, d: Direction, w: World) {
    && r.done <= |ordered| && GoodFiles(r.files) && ReadyAll(w, ordered[..r.done], d)
    && (var reached := Reversals(w, ordered[..r.done], d);
        && (View(r.files) == reached
            || (r.done < |ordered| && Ready(reached, ordered[r.done], d) && View(r.files) == Reverse(reached, ordered[r.done], d)))
        && forall ref :: ref in r.pending && r.pending[ref] == d ==>
             r.done < |ordered| && ref == ordered[r.done].ref && Ready(reached, ordered[r.done], d))
    && forall i :: 0 <= i < r.done ==> ordered[i].ref !in r.pending
  }

  predicate NoneWaits(pending: Pending, d: Direction) { forall ref :: ref in pending ==> pending[ref] != d }

  /** The entries can be attempted from the files, and could be from `at`. */
  predicate Attemptable(files: Files, pending: Pending, ordered: seq<Entry>, d: Direction, at: World) {
    && GoodFiles(files) && OwnRefs(ordered) && (forall i :: 0 <= i < |ordered| ==> Proper(ordered[i])) && NoneWaits(pending, d)
    && ReadyAll(at, ordered, d) && SamePlaces(View(files), at)
  }

  lemma {:induction false} NextAttemptable(files: Files, pending: Pending, ordered: seq<Entry>, d: Direction, at: World, files': Files, pending': Pending)
    requires ordered != [] && Attemptable(files, pending, ordered, d, at)
    requires GoodFiles(files') && View(files') == Reverse(View(files), ordered[0], d) && pending' == pending - {ordered[0].ref}
    ensures Attemptable(files', pending', ordered[1..], d, Reverse(at, ordered[0], d))
  {
    OwnRefsFirst(ordered);
    PlacesReversed(View(files), at, ordered[0], d);
  }

  lemma {:induction false} AttemptUnfolds(p: Platform, files: Files, pending: Pending, ordered: seq<Entry>, d: Direction, trials: Trials)
    requires ordered != [] && !Try(p, files, pending, ordered[0], d, trials(ordered[0].ref)).stopped
    ensures var t := Try(p, files, pending, ordered[0], d, trials(ordered[0].ref));
            var rest := Attempt(p, t.files, t.pending, ordered[1..], d, trials);
            Attempt(p, files, pending, ordered, d, trials) == rest.(done := rest.done + 1)
  {
  }

  lemma {:induction false} AttemptReverses(p: Platform, files: Files, pending: Pending, ordered: seq<Entry>, d: Direction, trials: Trials, at: World)
    requires Attemptable(files, pending, ordered, d, at)
    ensures Landed(Attempt(p, files, pending, ordered, d, trials), ordered, d, View(files))
    decreases ordered
  {
    if ordered == [] { assert ordered[..0] == []; }
    else {
      var e := ordered[0];
      TryReverses(p, files, pending, e, d, trials(e.ref), at);
      var t := Try(p, files, pending, e, d, trials(e.ref));
      if t.stopped { StoppedLands(p, files, pending, ordered, d, trials, t); }
      else {
        NextAttemptable(files, pending, ordered, d, at, t.files, t.pending);
        AttemptReverses(p, t.files, t.pending, ordered[1..], d, trials, Reverse(at, e, d));
        LandsOn(p, files, pending, ordered, d, trials, t);
      }
    }
  }

  lemma {:induction false} LandsOn(p: Platform, files: Files, pending: Pending, ordered: seq<Entry>, d: Direction, trials: Trials, t: Tried)
    requires ordered != [] && OwnRefs(ordered) && (forall i :: 0 <= i < |ordered| ==> Proper(ordered[i])) && GoodFiles(t.files)
    requires t == Try(p, files, pending, ordered[0], d, trials(ordered[0].ref)) && !t.stopped && t.pending == pending - {ordered[0].ref}
    requires Ready(View(files), ordered[0], d) && View(t.files) == Reverse(View(files), ordered[0], d)
    requires Landed(Attempt(p, t.files, t.pending, ordered[1..], d, trials), ordered[1..], d, View(t.files))
    ensures Landed(Attempt(p, files, pending, ordered, d, trials), ordered, d, View(files))
  {
    OwnRefsFirst(ordered);
    AttemptLeaves(p, t.files, t.pending, ordered[1..], d, trials, ordered[0].ref);
    AttemptUnfolds(p, files, pending, ordered, d, trials);
    LandedOn(Attempt(p, t.files, t.pending, ordered[1..], d, trials), ordered, d, View(files));
  }

  lemma {:induction false} OwnRefsFirst(ordered: seq<Entry>)
    requires OwnRefs(ordered) && ordered != []
    ensures OwnRefs(ordered[1..]) && ordered[0].ref !in Refs(ordered[1..])
  {
  }

  lemma {:induction false} PlacesReversed(a: World, b: World, e: Entry, d: Direction)
    requires SamePlaces(a, b)
    ensures SamePlaces(Reverse(a, e, d), Reverse(b, e, d))
  {
  }

  lemma {:induction false} StoppedLands(p: Platform, files: Files, pending: Pending, ordered: seq<Entry>, d: Direction, trials: Trials, t: Tried)
    requires ordered != [] && t == Try(p, files, pending, ordered[0], d, trials(ordered[0].ref)) && t.stopped && GoodFiles(t.files) && NoneWaits(pending, d)
    requires var w, e := View(files), ordered[0];
             && (t.applied ==> Ready(w, e, d) && View(t.files) == Reverse(w, e, d) && t.pending == pending - {e.ref})
             && (!t.applied ==> (t.pending == pending || (t.pending == pending[e.ref := d] && Ready(w, e, d)))
                                && (View(t.files) == w || (Ready(w, e, d) && View(t.files) == Reverse(w, e, d))))
    ensures Landed(Attempt(p, files, pending, ordered, d, trials), ordered, d, View(files))
  {
    Prefixes(ordered);
    ReversalsOne(View(files), ordered[0], d);
  }

  lemma {:induction false} LandedOn(rest: Progress, ordered: seq<Entry>, d: Direction, w: World)
    requires ordered != [] && Ready(w, ordered[0], d) && Landed(rest, ordered[1..], d, Reverse(w, ordered[0], d)) && ordered[0].ref !in rest.pending
    ensures Landed(rest.(done := rest.done + 1), ordered, d, w)
  {
    PrefixMoves(ordered, rest.done + 1);
  }

  lemma {:induction false} UpcomingBack(h: Stacks, d: Direction, k: nat)
    requires GoodStacks(h) && Source(h, d) != [] && 0 < k <= |Ordered(h, d)| && GoodStacks(Publish(h, d, k))
    ensures Source(Publish(h, d, k), Opposite(d)) != [] && Upcoming(Publish(h, d, k), Opposite(d)) == Ordered(h, d)[k - 1]
  {
    if d.Undo? { BackwardsAt(h.undo[|h.undo| - 1], k - 1); }
  }

  /** The present and the world reached from the draft stay apart. */
  lemma {:induction false} ReachedApart(base: World, h: Stacks, d: Direction, k: nat, w: World)
    requires GoodStacks(h) && Source(h, d) != [] && ReadyAll(base, Timeline(h), Redo) && w != Present(base, h) && k <= |Ordered(h, d)|
    requires ReadyAll(w, Ordered(h, d)[..k], d)
    ensures Reversals(w, Ordered(h, d)[..k], d) != Present(base, Publish(h, d, k))
  {
    var first := Ordered(h, d)[..k];
    OrderedReady(base, h, d, k);
    OrderedProper(h, d);
    assert forall i :: 0 <= i < k ==> first[i] == Ordered(h, d)[i];
    if Reversals(w, first, d) == Reversals(Present(base, h), first, d) { ReversalsApart(w, Present(base, h), first, d); }
  }

  lemma {:induction false} NextReady(base: World, h: Stacks, d: Direction, k: nat)
    requires GoodStacks(h) && Source(h, d) != [] && ReadyAll(base, Timeline(h), Redo) && k < |Ordered(h, d)|
    ensures Proper(Ordered(h, d)[k]) && Ready(Present(base, Publish(h, d, k)), Ordered(h, d)[k], d)
  {
    var ordered := Ordered(h, d);
    OrderedReady(base, h, d, k);
    OrderedProper(h, d);
    OrderedReady(base, h, d, k + 1);
    LastReady(Present(base, h), ordered, k, d);
  }

  lemma {:induction false} LastReady(w: World, es: seq<Entry>, k: nat, d: Direction)
    requires k < |es| && ReadyAll(w, es[..k + 1], d)
    ensures Ready(Reversals(w, es[..k], d), es[k], d)
  {
    assert es[..k + 1] == es[..k] + [es[k]];
    ReversalsAppend(w, es[..k], [es[k]], d);
    ReversalsOne(Reversals(w, es[..k], d), es[k], d);
  }

  /** An attempt from the drafted world leaves the notes out of step, unless it applies
      nothing and changes nothing. */
  lemma {:induction false} LandsApart(t: Situation, h: Stacks, r: Progress, d: Direction, w: World, half: Option<Direction>)
    requires GoodStacks(h) && Source(h, d) != [] && ReadyAll(t.base, Timeline(h), Redo) && w != Present(t.base, h)
    requires Landed(r, Ordered(h, d), d, w) && t.stacks == Publish(h, d, r.done) && t.files == r.files && t.pending == r.pending
    requires FollowsAs(t, half)
    ensures r.done == 0 && (View(r.files) == w || half == Some(Opposite(d)))
  {
    ReachedApart(t.base, h, d, r.done, w);
    if r.done < |Ordered(h, d)| { NextReady(t.base, h, d, r.done); }
    if half == Some(Opposite(d)) { OtherHalf(t, h, r, d, w); }
    else { OwnHalf(t, h, r, d, w, half); }
  }

  lemma {:induction false} OtherHalf(t: Situation, h: Stacks, r: Progress, d: Direction, w: World)
    requires GoodStacks(h) && Source(h, d) != [] && Landed(r, Ordered(h, d), d, w) && t.stacks == Publish(h, d, r.done) && t.pending == r.pending
    requires FollowsAs(t, Some(Opposite(d)))
    ensures r.done == 0
  {
    if r.done > 0 { UpcomingBack(h, d, r.done); }
  }

  lemma {:induction false} OwnHalf(t: Situation, h: Stacks, r: Progress, d: Direction, w: World, half: Option<Direction>)
    requires GoodStacks(h) && Source(h, d) != [] && Landed(r, Ordered(h, d), d, w)
    requires t.stacks == Publish(h, d, r.done) && t.files == r.files && t.pending == r.pending && FollowsAs(t, half) && half in {None, Some(d)}
    requires var present, reached := Present(t.base, t.stacks), Reversals(w, Ordered(h, d)[..r.done], d);
             reached != present && (r.done < |Ordered(h, d)| ==> Proper(Ordered(h, d)[r.done]) && Ready(present, Ordered(h, d)[r.done], d))
    ensures r.done == 0 && View(r.files) == w
  {
    var reached := Reversals(w, Ordered(h, d)[..r.done], d);
    if r.done < |Ordered(h, d)| { NextApart(t, h, r, d, reached, Present(t.base, t.stacks)); }
    if r.done == 0 { assert Ordered(h, d)[..0] == [] && reached == w; }
  }

  lemma {:induction false} NextApart(t: Situation, h: Stacks, r: Progress, d: Direction, reached: World, present: World)
    requires GoodStacks(h) && Source(h, d) != [] && r.done < |Ordered(h, d)| && GoodStacks(t.stacks) && t.stacks == Publish(h, d, r.done)
    requires var g := Ordered(h, d)[r.done];
             && Proper(g) && Ready(present, g, d) && reached != present
             && (View(r.files) == reached || (Ready(reached, g, d) && View(r.files) == Reverse(reached, g, d)))
             && (g.ref in r.pending && r.pending[g.ref] == d ==> Ready(reached, g, d))
    ensures View(r.files) != present
    ensures Source(t.stacks, d) != [] && Upcoming(t.stacks, d) == Ordered(h, d)[r.done]
    ensures Half(r.files, r.pending, Ordered(h, d)[r.done], d, present) ==> r.done == 0 && View(r.files) == reached
  {
    var g := Ordered(h, d)[r.done];
    PublishNext(h, d, r.done);
    if Ready(reached, g, d) {
      if Reverse(reached, g, d) == present { ReversedSame(reached, present, g, d); }
      if Reverse(present, g, d) == reached { ReversedSame(present, reached, g, d); }
      if Reverse(present, g, d) == Reverse(reached, g, d) { ReverseApart(present, reached, g, d); }
    }
  }

  lemma {:induction false} DraftPlaces(s: Situation, d: Direction)
    requires FollowsAs(s, Some(d))
    ensures SamePlaces(View(s.files), Present(s.base, s.stacks))
  {
  }

  lemma {:induction false} Whole(command: Command)
    ensures command[..|command|] == command
  {
  }

  lemma {:induction false} DraftAttemptable(s: Situation, d: Direction)
    requires Following(s) && Source(s.stacks, d) != [] && NoneWaits(s.pending, d) && SamePlaces(View(s.files), Present(s.base, s.stacks))
    ensures Attemptable(s.files, s.pending, Ordered(s.stacks, d), d, Present(s.base, s.stacks)) && Ordered(s.stacks, d) != []
    ensures forall i :: 0 <= i < |Ordered(s.stacks, d)| ==> Proper(Ordered(s.stacks, d)[i])
  {
    OrderedSome(s.stacks, d);
    OrderedProper(s.stacks, d);
    OrderedOwned(s.stacks, d);
    OrderedReady(s.base, s.stacks, d, |Ordered(s.stacks, d)|);
    Whole(Ordered(s.stacks, d));
  }

  /** Once a draft differs, a reversal in the other direction keeps the notes in step
      exactly when it applies nothing and changes no draft; provided no reversal in that
      direction waits to be retried. */
  lemma {:induction false} OtherAfterDraft(p: Platform, s: Situation, t: Situation, d: Direction, trials: Trials)
    requires Following(s) && !InStep(s) && !FollowsAs(s, Some(d)) && Happens(s, t, p, Reversal(d, trials)) && NoneWaits(s.pending, d)
    ensures Following(t) <==> Quiet(s, d, trials)
  {
    if Quiet(s, d, trials) { QuietFollows(p, s, t, d, trials); }
    else if half :| FollowsAs(t, half) {
      var draft :| FollowsAs(s, draft);
      assert draft == Some(Opposite(d));
      DraftPlaces(s, Opposite(d));
      DraftAttemptable(s, d);
      AttemptReverses(p, s.files, s.pending, Ordered(s.stacks, d), d, trials, Present(s.base, s.stacks));
      QuietAttempt(p, s.files, s.pending, Ordered(s.stacks, d), d, trials);
      LandsApart(t, s.stacks, Attempt(p, s.files, s.pending, Ordered(s.stacks, d), d, trials), d, View(s.files), half);
    }
  }

  lemma {:induction false} OrderedOwned(h: Stacks, d: Direction)
    requires OwnRefs(Timeline(h)) && Source(h, d) != []
    ensures OwnRefs(Ordered(h, d))
  {
    var stack := Source(h, d);
    var top := stack[|stack| - 1];
    OwnRefsSplit(Flat(h.undo), Ahead(h.redo));
    FlatTop(stack);
    if d.Undo? {
      OwnRefsSplit(Flat(stack[..|stack| - 1]), top);
      BackwardsOwned(top);
    } else {
      OwnRefsSplit(top, Ahead(stack[..|stack| - 1]));
    }
  }

  lemma {:induction false} BackwardsOwned(es: seq<Entry>)
    requires OwnRefs(es)
    ensures OwnRefs(Backwards(es))
  {
    if es != [] {
      BackwardsOwned(es[1..]);
      BackwardsRefs(es[1..]);
      OwnRefsOne(Backwards(es[1..]), es[0]);
    }
  }

  /** An undo whose save fails at once, of an edit that changed something. */
  lemma {:induction false} DraftedDiffers(p: Platform, s: Situation, t: Situation, trials: Trials)
    requires FollowsAs(s, None) && s.stacks.undo != [] && Upcoming(s.stacks, Undo).change.Edited? && forall r :: trials(r).Drafted?
    requires Reverse(View(s.files), Upcoming(s.stacks, Undo), Undo) != View(s.files)
    requires Happens(s, t, p, Reversal(Undo, trials))
    ensures !InStep(t) && t.stacks == s.stacks
  {
    UndoStarts(s);
    FirstDrafted(p, s.files, s.pending, Ordered(s.stacks, Undo), trials);
  }

  lemma {:induction false} UndoStarts(s: Situation)
    requires FollowsAs(s, None) && s.stacks.undo != []
    ensures var ordered := Ordered(s.stacks, Undo);
            && ordered != [] && ordered[0] == Upcoming(s.stacks, Undo)
            && (forall i :: 0 <= i < |ordered| ==> ordered[i].file in s.files && Proper(ordered[i]))
            && Ready(View(s.files), ordered[0], Undo)
  {
    var ordered := Ordered(s.stacks, Undo);
    OrderedReady(s.base, s.stacks, Undo, |ordered|);
    assert ordered[..|ordered|] == ordered;
    OrderedProper(s.stacks, Undo);
    OrderedPresent(View(s.files), ordered, Undo);
    PublishNext(s.stacks, Undo, 0);
  }

  lemma {:induction false} FirstDrafted(p: Platform, files: Files, pending: Pending, ordered: seq<Entry>, trials: Trials)
    requires GoodFiles(files) && ordered != [] && ordered[0].change.Edited? && Proper(ordered[0]) && Ready(View(files), ordered[0], Undo)
    requires trials(ordered[0].ref).Drafted?
    ensures var r := Attempt(p, files, pending, ordered, Undo, trials);
            r.done == 0 && View(r.files) == Reverse(View(files), ordered[0], Undo)
  {
    EditAccepted(p, files, pending, ordered[0], Undo, View(files));
    ViewEdit(files, ordered[0], Undo);
  }

  /** Entries that could be reversed are of notes that are there. */
  lemma {:induction false} OrderedPresent(w: World, es: seq<Entry>, d: Direction)
    requires ReadyAll(w, es, d)
    ensures forall i :: 0 <= i < |es| ==> es[i].file in w
    decreases es
  {
    if es != [] { OrderedPresent(Reverse(w, es[0], d), es[1..], d); }
  }
}
