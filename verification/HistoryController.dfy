/** The commands of the Base controller that change notes and their history. */
module HistoryController {
  import opened Platforms
  import opened PropertyStates
  import opened CommandHistory
  import opened HistoryReplay
  import opened HistoryCommands
  import opened HistoryWrites
  import opened HistorySessions

  class Commands {
    var files: Files
    var pending: Pending          // pendingHistoryDirection
    var waiting: Waiting          // pendingPropertyHistory
    var undoCommands: seq<Command>
    var redoCommands: seq<Command>
    var created: nat
    ghost var base: World

    ghost function State(): Session
      reads this
    {
      Session(base, Stacks(undoCommands, redoCommands), files, pending, waiting, created)
    }

    constructor (files: Files)
      requires GoodFiles(files)
      ensures State() == Fresh0(files) && Valid(State()) && Follow(State())
    {
      this.files, pending, waiting, undoCommands, redoCommands, created, base := files, map[], map[], [], [], 0, View(files);
      new;
      Starts(files);
      NoRefs();
    }

    method RecordHistory(entries: Command)
      modifies `undoCommands, `redoCommands, `base
      ensures Stacks(undoCommands, redoCommands) == Record(Stacks(old(undoCommands), old(redoCommands)), entries)
      ensures base == Rebased(old(base), Stacks(old(undoCommands), old(redoCommands)), entries)
    {
      if entries == [] { return; }
      base := Rebased(base, Stacks(undoCommands, redoCommands), entries);
      undoCommands, redoCommands := undoCommands + [entries], [];
      if |undoCommands| > MAX_COMMANDS { undoCommands := undoCommands[1..]; }
    }

    /** `writeProperties`: the groups are saved in turn; at the first that fails, those
        before it are recorded. */
    method WriteProperties(p: Platform, groups: seq<Group>) returns (failed: bool)
      requires Valid(State()) && OneGroupEach(groups)
      modifies this
      ensures State() == Next(p, old(State()), Edits(groups)) && Valid(State())
      ensures failed == WriteAll(p, old(files), old(waiting), groups, old(created)).failed
    {
      ValidStays(p, State(), Edits(groups));
      var entries;
      ghost var step := StepOf(p);
      entries, failed := WriteInTurn(p, groups, step);
      AllByIs(p, step, old(files), old(waiting), groups, created);
      created := created + |groups|;
      RecordHistory(entries);
    }

    method WriteInTurn(p: Platform, groups: seq<Group>, ghost step: Step) returns (entries: Command, failed: bool)
      requires IsStep(p, step)
      modifies `files, `waiting
      ensures Wrote(files, waiting, entries, failed) == AllBy(step, old(files), old(waiting), groups, created)
    {
      entries, failed := [], false;
      var i: nat := 0;
      ghost var start := Wrote(files, waiting, [], false);
      while i < |groups| && !failed
        invariant i <= |groups| && Wrote(files, waiting, entries, failed) == SomeBy(step, start, groups, i, created)
      {
        var more, saved := WriteGroup(p, groups[i], created + i, step);
        entries, failed, i := entries + more, !saved, i + 1;
      }
      WroteSome(step, start, groups, i, created);
    }

    /** The edits of one file. Another edit of it must not wait. */
    method WriteGroup(p: Platform, g: Group, ref: nat, ghost step: Step) returns (entries: Command, saved: bool)
      requires IsStep(p, step)
      modifies `files, `waiting
      ensures One(files, waiting, entries, saved) == step(old(files), old(waiting), g, ref)
    {
      StepTakes(p, step, files, waiting, g, ref);
      if g.file !in files || (g.file in waiting && !Retries(waiting, g)) { return [], false; }
      var d := DrawNote(p, files[g.file].note, waiting, g, ref);
      entries, saved := TakeGroup(g, d.next, d.u);
    }

    /** What the edits write, and what waits. A retry that finds what it wrote keeps what it
        remembers as before. */
    static method DrawNote(p: Platform, note: Note, waiting: Waiting, g: Group, ref: nat) returns (d: Drawn)
      requires g.file in waiting ==> Retries(waiting, g)
      ensures d == Draw(p, note, waiting, g, ref)
    {
      var keys, retained := Keys(g.edits), if g.file in waiting then waiting[g.file].after else [];
      var before := States(p, note, keys, retained);
      var next := Written(p, note, g.edits, before);
      if g.file in waiting && before == retained { return Drawn(next, waiting[g.file], true); }
      var after := States(p, next, keys, before);
      d := Drawn(next, Unsaved(g.edits, ref, before, after, false, false), false);
    }

    method TakeGroup(g: Group, next: Note, u: Unsaved) returns (entries: Command, saved: bool)
      requires g.file in files
      modifies `files, `waiting
      ensures One(files, waiting, entries, saved) == Taking(old(files), old(waiting), g, next, u)
    {
      entries, saved := [], false;
      if g.trial.Committed? || g.trial == Refused(false) { return; }
      waiting := waiting[g.file := u];
      if g.trial.Refused? { return; }
      files := files[g.file := File(files[g.file].path, next)];
      if g.trial.Drafted? {
        waiting := waiting[g.file := u.(drafted := true)];
        return;
      }
      waiting, saved := waiting - {g.file}, true;
      if u.before != u.after { entries := [Held(g.file, u)]; }
    }

    /** `renameFile`. */
    method RenameFile(p: Platform, file: nat, dest: string, trial: Trial) returns (failed: bool)
      requires Valid(State())
      modifies this
      ensures State() == Next(p, old(State()), Renaming(file, dest, trial)) && Valid(State())
      ensures failed <==> file !in old(files) || (dest != old(files)[file].path && !trial.Saved?)
    {
      ValidStays(p, State(), Renaming(file, dest, trial));
      failed := file !in files;
      if failed || dest == files[file].path { return; }
      failed := !trial.Saved?;
      if trial.Saved? || trial.Committed? {
        var entry := Entry(created, file, Moved(files[file].path, dest));
        files, created := files[file := File(dest, files[file].note)], created + 1;
        waiting := Shifted(waiting, {file});
        RecordHistory([entry]);
      }
    }

    /** `applyHistory`. */
    method ApplyHistory(p: Platform, d: Direction, trials: Trials) returns (failed: bool)
      requires Valid(State())
      modifies this
      ensures State() == Next(p, old(State()), Reversing(d, trials)) && Valid(State())
      ensures failed <==> Source(old(State()).stacks, d) != [] && (Missing(old(files), Ordered(old(State()).stacks, d))
                          || Attempt(p, old(files), old(pending), Ordered(old(State()).stacks, d), d, trials).failed)
    {
      ghost var s := State();
      ValidStays(p, s, Reversing(d, trials));
      var source := if d.Undo? then undoCommands else redoCommands;
      if source == [] { return false; }
      var command := source[|source| - 1];
      var ordered := if d.Undo? then Backwards(command) else command;
      var present := AllThere(ordered);
      if !present { return true; }
      failed := ReverseInTurn(p, d, command, ordered, trials);
      NextReverses(p, s, d, trials);
    }

    method ReverseInTurn(p: Platform, d: Direction, command: Command, ordered: seq<Entry>, trials: Trials) returns (failed: bool)
      requires GoodFiles(files) && ValidStacks(Stacks(undoCommands, redoCommands)) && Source(Stacks(undoCommands, redoCommands), d) != []
      requires command == Source(Stacks(undoCommands, redoCommands), d)[|Source(Stacks(undoCommands, redoCommands), d)| - 1]
      requires ordered == Ordered(Stacks(undoCommands, redoCommands), d)
      modifies `files, `pending, `waiting, `undoCommands, `redoCommands
      ensures var h, r := Stacks(old(undoCommands), old(redoCommands)), Attempt(p, old(files), old(pending), ordered, d, trials);
              && failed == r.failed && files == r.files && pending == r.pending
              && waiting == Shifted(old(waiting), Renamed(ordered[..r.done])) && Stacks(undoCommands, redoCommands) == Publish(h, d, r.done)
    {
      OrderedProper(Stacks(undoCommands, redoCommands), d);
      var done;
      done, failed := AttemptInTurn(p, ordered, d, trials);
      PublishApplied(d, command, ordered, done);
    }

    method AllThere(ordered: seq<Entry>) returns (present: bool)
      ensures present <==> !Missing(files, ordered)
    {
      var k: nat := 0;
      while k < |ordered|
        invariant k <= |ordered| && forall j :: 0 <= j < k ==> ordered[j].file in files
      {
        if ordered[k].file !in files { return false; }
        k := k + 1;
      }
      return true;
    }

    method AttemptInTurn(p: Platform, ordered: seq<Entry>, d: Direction, trials: Trials) returns (done: nat, failed: bool)
      requires GoodFiles(files) && forall i :: 0 <= i < |ordered| ==> Proper(ordered[i])
      modifies `files, `pending, `waiting
      ensures Progress(files, pending, done, failed) == Attempt(p, old(files), old(pending), ordered, d, trials)
      ensures done <= |ordered| && waiting == Shifted(old(waiting), Renamed(ordered[..done]))
    {
      done, failed := 0, false;
      ghost var all := Attempt(p, files, pending, ordered, d, trials);
      ShiftedNone(waiting, ordered);
      while done < |ordered| && !failed
        invariant done <= |ordered| && GoodFiles(files) && waiting == Shifted(old(waiting), Renamed(ordered[..done]))
        invariant LeadsTo(p, Progress(files, pending, done, failed), ordered, d, trials, all)
        decreases |ordered| - done, !failed
      {
        var entry := ordered[done];
        var t := Try(p, files, pending, entry, d, trials(entry.ref));
        AttemptStep(p, Progress(files, pending, done, failed), ordered, d, trials, all);
        files, pending, failed := t.files, t.pending, t.stopped;
        if t.applied {
          ShiftedMore(old(waiting), ordered, done);
          if entry.change.Moved? { waiting := Shifted(waiting, {entry.file}); }
          done := done + 1;
        }
      }
      LedTo(p, Progress(files, pending, done, failed), ordered, d, trials, all);
    }

    method PublishApplied(d: Direction, command: Command, ordered: seq<Entry>, k: nat)
      requires ValidStacks(Stacks(undoCommands, redoCommands)) && Source(Stacks(undoCommands, redoCommands), d) != []
      requires command == Source(Stacks(undoCommands, redoCommands), d)[|Source(Stacks(undoCommands, redoCommands), d)| - 1]
      requires ordered == Ordered(Stacks(undoCommands, redoCommands), d) && k <= |ordered|
      modifies `undoCommands, `redoCommands
      ensures Stacks(undoCommands, redoCommands) == Publish(Stacks(old(undoCommands), old(redoCommands)), d, k)
    {
      if k == 0 { return; }
      ghost var h := Stacks(undoCommands, redoCommands);
      PublishFilters(h, d, k);
      var applied := ordered[..k];
      var rest := Unselected(command, Refs(applied));
      if d.Undo? {
        undoCommands, redoCommands := Shrunk(undoCommands, rest), Grown(redoCommands, Backwards(applied));
      } else {
        undoCommands, redoCommands := Grown(undoCommands, applied), Shrunk(redoCommands, rest);
      }
    }
  }

  lemma {:induction false} NextReverses(p: Platform, s: Session, d: Direction, trials: Trials)
    requires Source(s.stacks, d) != [] && !Missing(s.files, Ordered(s.stacks, d))
    ensures var r := Attempt(p, s.files, s.pending, Ordered(s.stacks, d), d, trials);
            Next(p, s, Reversing(d, trials))
            == Session(s.base, Publish(s.stacks, d, r.done), r.files, r.pending, Shifted(s.waiting, Renamed(Ordered(s.stacks, d)[..r.done])), s.created)
  {
  }

  /** What the loop does with one group, whatever it is. */
  type Step = (Files, Waiting, Group, nat) -> One

  ghost predicate IsStep(p: Platform, step: Step) {
    forall files, waiting, g, ref {:trigger WriteOne(p, files, waiting, g, ref)} :: WriteOne(p, files, waiting, g, ref) == step(files, waiting, g, ref)
  }

  lemma {:induction false} StepTakes(p: Platform, step: Step, files: Files, waiting: Waiting, g: Group, ref: nat)
    requires IsStep(p, step)
    ensures step(files, waiting, g, ref) ==
            if !Admits(files, waiting, g) then One(files, waiting, [], false)
            else var d := Draw(p, files[g.file].note, waiting, g, ref); Taking(files, waiting, g, d.next, d.u)
  {
    assert WriteOne(p, files, waiting, g, ref) == step(files, waiting, g, ref);
  }

  ghost function StepOf(p: Platform): (step: Step)
    ensures IsStep(p, step)
  {
    (files, waiting, g, ref) => WriteOne(p, files, waiting, g, ref)
  }

  function AllBy(step: Step, files: Files, waiting: Waiting, groups: seq<Group>, ref: nat): Wrote
    decreases groups
  {
    if groups == [] then Wrote(files, waiting, [], false)
    else
      var one := step(files, waiting, groups[0], ref);
      if !one.saved then Wrote(one.files, one.waiting, one.entries, true)
      else
        var rest := AllBy(step, one.files, one.waiting, groups[1..], ref + 1);
        rest.(entries := one.entries + rest.entries)
  }

  lemma {:induction false} AllByIs(p: Platform, step: Step, files: Files, waiting: Waiting, groups: seq<Group>, ref: nat)
    requires IsStep(p, step)
    ensures AllBy(step, files, waiting, groups, ref) == WriteAll(p, files, waiting, groups, ref)
    decreases groups
  {
    if groups != [] {
      var one := WriteOne(p, files, waiting, groups[0], ref);
      UnsavedEntries(p, files, waiting, groups[0], ref);
      AllByIs(p, step, one.files, one.waiting, groups[1..], ref + 1);
    }
  }

  /** The first `n` groups, or those up to the one that fails. */
  function SomeBy(step: Step, start: Wrote, groups: seq<Group>, n: nat, ref: nat): Wrote
    requires n <= |groups|
  {
    if n == 0 then start
    else
      var at := SomeBy(step, start, groups, n - 1, ref);
      if at.failed then at
      else
        var one := step(at.files, at.waiting, groups[n - 1], ref + n - 1);
        Wrote(one.files, one.waiting, at.entries + one.entries, !one.saved)
  }

  /** Going on from where `at` is, at group `i`. */
  function Onwards(step: Step, at: Wrote, groups: seq<Group>, i: nat, ref: nat): Wrote
    requires i <= |groups|
  {
    if at.failed then at
    else
      var rest := AllBy(step, at.files, at.waiting, groups[i..], ref + i);
      rest.(entries := at.entries + rest.entries)
  }

  lemma {:induction false} AllByAt(step: Step, files: Files, waiting: Waiting, groups: seq<Group>, i: nat, ref: nat)
    requires i < |groups|
    ensures var one := step(files, waiting, groups[i], ref);
            var rest := AllBy(step, one.files, one.waiting, groups[i + 1..], ref + 1);
            AllBy(step, files, waiting, groups[i..], ref)
            == if one.saved then rest.(entries := one.entries + rest.entries) else Wrote(one.files, one.waiting, one.entries, true)
  {
    assert groups[i..][0] == groups[i] && groups[i..][1..] == groups[i + 1..];
  }

  lemma {:induction false} OnwardsNext(step: Step, at: Wrote, groups: seq<Group>, i: nat, ref: nat)
    requires i < |groups| && !at.failed
    ensures var one := step(at.files, at.waiting, groups[i], ref + i);
            Onwards(step, Wrote(one.files, one.waiting, at.entries + one.entries, !one.saved), groups, i + 1, ref) == Onwards(step, at, groups, i, ref)
  {
    var one := step(at.files, at.waiting, groups[i], ref + i);
    AllByAt(step, at.files, at.waiting, groups, i, ref + i);
    Joined(at.entries, one.entries, AllBy(step, one.files, one.waiting, groups[i + 1..], ref + i + 1).entries);
  }

  lemma {:induction false} OnwardsFrom(step: Step, start: Wrote, groups: seq<Group>, n: nat, ref: nat)
    requires n <= |groups| && !start.failed
    ensures Onwards(step, SomeBy(step, start, groups, n, ref), groups, n, ref) == Onwards(step, start, groups, 0, ref)
  {
    if n > 0 {
      OnwardsFrom(step, start, groups, n - 1, ref);
      var at := SomeBy(step, start, groups, n - 1, ref);
      if !at.failed { OnwardsNext(step, at, groups, n - 1, ref); }
    }
  }

  lemma {:induction false} WroteSome(step: Step, start: Wrote, groups: seq<Group>, n: nat, ref: nat)
    requires n <= |groups| && !start.failed && start.entries == []
    requires SomeBy(step, start, groups, n, ref).failed || n == |groups|
    ensures SomeBy(step, start, groups, n, ref) == AllBy(step, start.files, start.waiting, groups, ref)
  {
    OnwardsFrom(step, start, groups, n, ref);
    OnwardsEnds(step, start, groups, ref);
    if n == |groups| { OnwardsEnds(step, SomeBy(step, start, groups, n, ref), groups, ref); }
  }

  lemma {:induction false} OnwardsEnds(step: Step, at: Wrote, groups: seq<Group>, ref: nat)
    ensures Onwards(step, at, groups, |groups|, ref) == at
    ensures at.entries == [] && !at.failed ==> Onwards(step, at, groups, 0, ref) == AllBy(step, at.files, at.waiting, groups, ref)
  {
    assert groups[|groups|..] == [] && groups[0..] == groups && at.entries + [] == at.entries;
    var all := AllBy(step, at.files, at.waiting, groups, ref);
    assert [] + all.entries == all.entries;
  }

  lemma {:induction false} ShiftedNone(waiting: Waiting, ordered: Command)
    ensures Shifted(waiting, Renamed(ordered[..0])) == waiting
  {
  }

  lemma {:induction false} ShiftedMore(waiting: Waiting, ordered: Command, k: nat)
    requires k < |ordered|
    ensures var before := Shifted(waiting, Renamed(ordered[..k]));
            Shifted(waiting, Renamed(ordered[..k + 1])) == if ordered[k].change.Moved? then Shifted(before, {ordered[k].file}) else before
  {
    var a, b := Renamed(ordered[..k]), Renamed(ordered[..k + 1]);
    forall f ensures f in b <==> f in a || (ordered[k].change.Moved? && f == ordered[k].file) {
      if f in a { var i :| 0 <= i < k && ordered[i].change.Moved? && ordered[i].file == f; assert ordered[..k + 1][i].file == f; }
      if f in b { var i :| 0 <= i < k + 1 && ordered[i].change.Moved? && ordered[i].file == f; if i < k { assert ordered[..k][i].file == f; } }
      if ordered[k].change.Moved? { assert ordered[..k + 1][k].file == ordered[k].file; }
    }
  }
}
