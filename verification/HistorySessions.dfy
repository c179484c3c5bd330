/** A session of edits, renames, undos and redos, with whatever failures: exactly which
    calls keep the notes and their history in step. */
module HistorySessions {
  import opened Platforms
  import opened PropertyStates
  import opened CommandHistory
  import opened HistoryReplay
  import opened HistoryCommands
  import opened HistoryDrafts
  import opened HistoryWrites
  import opened HistoryMirrors

  // ----- calls

  /** The controller's history between two calls. `base` is what the notes said before the
      oldest recorded command; `created` counts the entry objects made so far. */
  datatype Session = Session(base: World, stacks: Stacks, files: Files, pending: Pending, waiting: Waiting, created: nat)

  datatype Call = Edits(groups: seq<Group>) | Renaming(file: nat, dest: string, trial: Trial) | Reversing(d: Direction, trials: Trials)

  /** After a rename no edit has the signature of one that waits for the note. */
  function Shifted(waiting: Waiting, files: set<nat>): Waiting {
    map f | f in waiting :: waiting[f].(moved := waiting[f].moved || f in files)
  }

  function Renamed(applied: Command): set<nat> { set i | 0 <= i < |applied| && applied[i].change.Moved? :: applied[i].file }

  predicate Renames(s: Session, file: nat, dest: string, trial: Trial) {
    file in s.files && dest != s.files[file].path && (trial.Saved? || trial.Committed?)
  }

  predicate Missing(files: Files, ordered: Command) { exists i :: 0 <= i < |ordered| && ordered[i].file !in files }

  /** What a call records. */
  function Entries(p: Platform, s: Session, call: Call): Command {
    match call
    case Edits(groups) => WriteAll(p, s.files, s.waiting, groups, s.created).entries
    case Renaming(file, dest, trial) => if Renames(s, file, dest, trial) then [Entry(s.created, file, Moved(s.files[file].path, dest))] else []
    case Reversing(_, _) => []
  }

  function Next(p: Platform, s: Session, call: Call): Session {
    match call
    case Edits(groups) =>
      var r := WriteAll(p, s.files, s.waiting, groups, s.created);
      Session(Rebased(s.base, s.stacks, r.entries), Record(s.stacks, r.entries), r.files, s.pending, r.waiting, s.created + |groups|)
    case Renaming(file, dest, trial) =>
      if !Renames(s, file, dest, trial) then s
      else
        var es := Entries(p, s, call);
        Session(Rebased(s.base, s.stacks, es), Record(s.stacks, es), s.files[file := File(dest, s.files[file].note)],
                s.pending, Shifted(s.waiting, {file}), s.created + 1)
    case Reversing(d, trials) =>
      if Source(s.stacks, d) == [] || Missing(s.files, Ordered(s.stacks, d)) then s
      else
        var r := Attempt(p, s.files, s.pending, Ordered(s.stacks, d), d, trials);
        Session(s.base, Publish(s.stacks, d, r.done), r.files, r.pending, Shifted(s.waiting, Renamed(Ordered(s.stacks, d)[..r.done])), s.created)
  }

  /** The edits of a command are grouped by file. */
  predicate Callable(call: Call) {
    call.Edits? ==> OneGroupEach(call.groups)
  }

  // ----- the invariant

  /** The notes without the edits that wait in drafts, beside the history. */
  function Settled(s: Session): Situation { Situation(s.base, s.stacks, Taken(s.files, s.waiting), s.pending) }

  predicate Apart(stack: seq<Command>) { forall i :: 0 <= i < |stack| ==> OnePerFile(stack[i]) }

  /** The objects `used` and those that wait are different, and older than `created`. */
  predicate Unshared(waiting: Waiting, used: set<nat>, created: nat) {
    && (forall r :: r in used ==> r < created)
    && (forall f :: f in waiting ==> waiting[f].ref < created && waiting[f].ref !in used)
    && (forall f, g :: f in waiting && g in waiting && f != g ==> waiting[f].ref != waiting[g].ref)
  }

  function Used(h: Stacks, pending: Pending): set<nat> { Refs(Timeline(h)) + pending.Keys }

  /** What every call keeps, whatever it does to the notes. */
  predicate Sound(s: Session) {
    && GoodWaiting(s.files, s.waiting) && Apart(s.stacks.undo) && Apart(s.stacks.redo)
    && Unshared(s.waiting, Used(s.stacks, s.pending), s.created)
  }

  /** Without the edits that wait in drafts the notes are what the stacks say, or one
      upcoming entry is reversed in a draft; and the notes tell which edits are drafted. */
  ghost predicate Follow(s: Session) { Sound(s) && Truthful(s.files, s.waiting) && Following(Settled(s)) }

  // ----- objects

  lemma {:induction false} DrawnShared(waiting: Waiting, used: set<nat>, created: nat, f: nat, u: Unsaved)
    requires Unshared(waiting, used, created) && (u.ref == created || (f in waiting && u.ref == waiting[f].ref))
    ensures Unshared(waiting, used, created + 1) && Unshared(waiting[f := u], used, created + 1)
    ensures u.ref !in used && Unshared(waiting - {f}, used, created + 1) && Unshared(waiting - {f}, used + {u.ref}, created + 1)
  {
  }

  lemma {:induction false} DrawnRef(p: Platform, note: Note, waiting: Waiting, g: Group, ref: nat)
    ensures var u := Draw(p, note, waiting, g, ref).u; u.ref == ref || (g.file in waiting && u.ref == waiting[g.file].ref)
  {
  }

  lemma {:induction false} NoRefs()
    ensures OwnRefs([]) && Refs([]) == {} && forall used: set<nat> :: used + Refs([]) == used
  {
  }

  lemma {:induction false} OneRef(e: Entry)
    ensures OwnRefs([e]) && Refs([e]) == {e.ref}
  {
    assert [e][1..] == [] && [e][0] == e;
  }

  /** The entries are new objects, and the edits that wait are others. */
  predicate Sharing(entries: Command, waiting: Waiting, used: set<nat>, created: nat) {
    OwnRefs(entries) && Refs(entries) !! used && Unshared(waiting, used + Refs(entries), created)
  }

  lemma {:induction false} NoneShared(waiting: Waiting, used: set<nat>, created: nat)
    requires Unshared(waiting, used, created)
    ensures Sharing([], waiting, used, created)
  {
    NoRefs();
  }

  lemma {:induction false} EntryShared(waiting: Waiting, used: set<nat>, created: nat, e: Entry)
    requires e.ref !in used && Unshared(waiting, used + {e.ref}, created)
    ensures Sharing([e], waiting, used, created)
  {
    OneRef(e);
  }

  lemma {:induction false} SharingMore(es: Command, fs: Command, waiting: Waiting, used: set<nat>, created: nat)
    requires OwnRefs(es) && Refs(es) !! used && Sharing(fs, waiting, used + Refs(es), created)
    ensures Sharing(es + fs, waiting, used, created)
  {
    RefsAppend(es, fs);
    OwnRefsSplit(es, fs);
    UnionMoves(used, Refs(es), Refs(fs));
  }

  lemma {:induction false} UnionMoves(a: set<nat>, b: set<nat>, c: set<nat>)
    ensures a + b + c == a + (b + c)
  {
  }

  lemma {:induction false} OneShared(p: Platform, files: Files, waiting: Waiting, g: Group, ref: nat, used: set<nat>)
    requires Unshared(waiting, used, ref)
    ensures var r := WriteOne(p, files, waiting, g, ref); Sharing(r.entries, r.waiting, used, ref + 1)
  {
    if !Admits(files, waiting, g) { SharedStill(waiting, used, ref); }
    else {
      var u := Draw(p, files[g.file].note, waiting, g, ref).u;
      DrawnRef(p, files[g.file].note, waiting, g, ref);
      match g.trial
      case Saved => SavedShared(waiting, used, ref, g.file, u);
      case Drafted => DraftShared(waiting, used, ref, g.file, u.(drafted := true));
      case Refused(noted) => if noted { DraftShared(waiting, used, ref, g.file, u); } else { SharedStill(waiting, used, ref); }
      case Committed => SharedStill(waiting, used, ref);
    }
  }

  lemma {:induction false} SharedStill(waiting: Waiting, used: set<nat>, created: nat)
    requires Unshared(waiting, used, created)
    ensures Sharing([], waiting, used, created + 1)
  {
    MoreCreated(waiting, used, created, created + 1);
    NoneShared(waiting, used, created + 1);
  }

  lemma {:induction false} DraftShared(waiting: Waiting, used: set<nat>, created: nat, f: nat, u: Unsaved)
    requires Unshared(waiting, used, created) && (u.ref == created || (f in waiting && u.ref == waiting[f].ref))
    ensures Sharing([], waiting[f := u], used, created + 1)
  {
    DrawnShared(waiting, used, created, f, u);
    NoneShared(waiting[f := u], used, created + 1);
  }

  lemma {:induction false} SavedShared(waiting: Waiting, used: set<nat>, created: nat, f: nat, u: Unsaved)
    requires Unshared(waiting, used, created) && (u.ref == created || (f in waiting && u.ref == waiting[f].ref))
    ensures Sharing([], waiting - {f}, used, created + 1) && Sharing([Held(f, u)], waiting - {f}, used, created + 1)
  {
    DrawnShared(waiting, used, created, f, u);
    NoneShared(waiting - {f}, used, created + 1);
    EntryShared(waiting - {f}, used, created + 1, Held(f, u));
  }

  lemma {:induction false} OneFile(p: Platform, files: Files, waiting: Waiting, g: Group, ref: nat)
    ensures var es := WriteOne(p, files, waiting, g, ref).entries; |es| <= 1 && forall i :: 0 <= i < |es| ==> es[i].file == g.file
  {
    if Admits(files, waiting, g) {
      var d := Draw(p, files[g.file].note, waiting, g, ref);
      TakesOne(files, waiting, g, d.next, d.u);
    }
  }

  lemma {:induction false} TakesOne(files: Files, waiting: Waiting, g: Group, next: Note, u: Unsaved)
    requires g.file in files
    ensures var es := Taking(files, waiting, g, next, u).entries; |es| <= 1 && forall i :: 0 <= i < |es| ==> es[i].file == g.file
  {
  }

  function FilesOf(command: Command): set<nat> { set i | 0 <= i < |command| :: command[i].file }

  function GroupFiles(groups: seq<Group>): set<nat> { set i | 0 <= i < |groups| :: groups[i].file }

  predicate OneGroupEach(groups: seq<Group>) { forall i, j :: 0 <= i < j < |groups| ==> groups[i].file != groups[j].file }

  lemma {:induction false} AllShared(p: Platform, files: Files, waiting: Waiting, groups: seq<Group>, ref: nat, used: set<nat>)
    requires Unshared(waiting, used, ref)
    ensures var r := WriteAll(p, files, waiting, groups, ref); Sharing(r.entries, r.waiting, used, ref + |groups|)
    decreases groups
  {
    if groups == [] { NoneShared(waiting, used, ref); }
    else {
      var one := WriteOne(p, files, waiting, groups[0], ref);
      OneShared(p, files, waiting, groups[0], ref, used);
      if one.saved {
        var rest := WriteAll(p, one.files, one.waiting, groups[1..], ref + 1);
        AllShared(p, one.files, one.waiting, groups[1..], ref + 1, used + Refs(one.entries));
        SharingMore(one.entries, rest.entries, rest.waiting, used, ref + |groups|);
      } else {
        UnsavedEntries(p, files, waiting, groups[0], ref);
        NoRefs();
        MoreCreated(one.waiting, used, ref + 1, ref + |groups|);
        NoneShared(one.waiting, used, ref + |groups|);
      }
    }
  }

  lemma {:induction false} AllOnePerFile(p: Platform, files: Files, waiting: Waiting, groups: seq<Group>, ref: nat)
    requires OneGroupEach(groups)
    ensures var es := WriteAll(p, files, waiting, groups, ref).entries; OnePerFile(es) && FilesOf(es) <= GroupFiles(groups)
    decreases groups
  {
    if groups != [] {
      var one := WriteOne(p, files, waiting, groups[0], ref);
      OneFile(p, files, waiting, groups[0], ref);
      GroupsApart(groups);
      if one.saved {
        AllOnePerFile(p, one.files, one.waiting, groups[1..], ref + 1);
        FilesApart(one.entries, WriteAll(p, one.files, one.waiting, groups[1..], ref + 1).entries, groups);
      } else { UnsavedEntries(p, files, waiting, groups[0], ref); }
    }
  }

  lemma {:induction false} MoreCreated(waiting: Waiting, used: set<nat>, a: nat, b: nat)
    requires Unshared(waiting, used, a) && a <= b
    ensures Unshared(waiting, used, b)
  {
  }

  lemma {:induction false} GroupsApart(groups: seq<Group>)
    requires groups != [] && OneGroupEach(groups)
    ensures OneGroupEach(groups[1..]) && groups[0].file !in GroupFiles(groups[1..]) && GroupFiles(groups) == {groups[0].file} + GroupFiles(groups[1..])
  {
    forall f | f in GroupFiles(groups) ensures f == groups[0].file || f in GroupFiles(groups[1..]) {
      var i :| 0 <= i < |groups| && groups[i].file == f;
      if i > 0 { assert groups[1..][i - 1].file == f; }
    }
    forall f | f in GroupFiles(groups[1..]) ensures f in GroupFiles(groups) && f != groups[0].file {
      var i :| 0 <= i < |groups[1..]| && groups[1..][i].file == f;
      assert groups[i + 1].file == f;
    }
    assert groups[0].file in GroupFiles(groups);
  }

  lemma {:induction false} FilesApart(es: Command, fs: Command, groups: seq<Group>)
    requires groups != [] && OneGroupEach(groups) && |es| <= 1 && (forall i :: 0 <= i < |es| ==> es[i].file == groups[0].file)
    requires OnePerFile(fs) && FilesOf(fs) <= GroupFiles(groups[1..])
    ensures OnePerFile(es + fs) && FilesOf(es + fs) <= GroupFiles(groups)
  {
    GroupsApart(groups);
    forall i | 0 <= i < |fs| ensures fs[i].file in GroupFiles(groups[1..]) { assert fs[i].file in FilesOf(fs); }
  }

  // ----- what every call keeps

  lemma {:induction false} FewerUsed(waiting: Waiting, less: set<nat>, more: set<nat>, created: nat)
    requires Unshared(waiting, more, created) && less <= more
    ensures Unshared(waiting, less, created)
  {
  }

  lemma {:induction false} RefsFlat(commands: seq<Command>, k: nat)
    requires k < |commands|
    ensures Refs(commands[k]) <= Refs(Flat(commands)) && Refs(Flat(commands[1..])) <= Refs(Flat(commands))
    decreases commands
  {
    var n := |commands| - 1;
    RefsAppend(Flat(commands[..n]), commands[n]);
    FlatFirst(commands);
    RefsAppend(commands[0], Flat(commands[1..]));
    if k < n { RefsFlat(commands[..n], k); }
  }

  lemma {:induction false} RecordUsed(h: Stacks, pending: Pending, entries: Command)
    ensures Used(Record(h, entries), pending) <= Used(h, pending) + Refs(entries)
  {
    if entries != [] {
      var undo := h.undo + [entries];
      FlatTop(undo);
      assert undo[..|h.undo|] == h.undo;
      RefsAppend(Flat(h.undo), entries);
      RefsFlat(undo, 0);
      RefsAppend(Flat(h.undo), Ahead(h.redo));
      RefsAppend(Flat(undo), []);
      RefsAppend(Flat(undo[1..]), []);
      NoRefs();
    }
  }

  lemma {:induction false} RecordApart(h: Stacks, entries: Command)
    requires Apart(h.undo) && Apart(h.redo) && OnePerFile(entries)
    ensures Apart(Record(h, entries).undo) && Apart(Record(h, entries).redo)
  {
  }

  lemma {:induction false} GrownApart(stack: seq<Command>, rest: Command)
    requires Apart(stack) && OnePerFile(rest)
    ensures Apart(Grown(stack, rest)) && (stack != [] ==> Apart(Shrunk(stack, rest)))
  {
  }

  lemma {:induction false} PublishApart(h: Stacks, d: Direction, k: nat)
    requires Source(h, d) != [] && k <= |Ordered(h, d)| && Apart(h.undo) && Apart(h.redo)
    ensures Apart(Publish(h, d, k).undo) && Apart(Publish(h, d, k).redo)
  {
    var command := Source(h, d)[|Source(h, d)| - 1];
    var n := |command|;
    assert OnePerFile(command[..n - k]) && OnePerFile(command[n - k..]) && OnePerFile(command[..k]) && OnePerFile(command[k..]);
    if k > 0 && d.Undo? { GrownApart(h.undo, command[..n - k]); GrownApart(h.redo, command[n - k..]); }
    else if k > 0 { GrownApart(h.redo, command[k..]); GrownApart(h.undo, command[..k]); }
  }

  lemma {:induction false} OrderedApart(h: Stacks, d: Direction)
    requires Source(h, d) != [] && Apart(Source(h, d))
    ensures OnePerFile(Ordered(h, d))
  {
    var command := Source(h, d)[|Source(h, d)| - 1];
    assert OnePerFile(command);
    forall i, j | 0 <= i < j < |command| ensures Backwards(command)[i].file != Backwards(command)[j].file {
      BackwardsAt(command, i);
      BackwardsAt(command, j);
    }
  }

  lemma {:induction false} OrderedRefs(h: Stacks, d: Direction)
    requires Source(h, d) != []
    ensures Refs(Ordered(h, d)) <= Refs(Timeline(h))
  {
    var stack := Source(h, d);
    FlatTop(stack);
    RefsAppend(Flat(h.undo), Ahead(h.redo));
    RefsAppend(Flat(stack[..|stack| - 1]), stack[|stack| - 1]);
    RefsAppend(stack[|stack| - 1], Ahead(stack[..|stack| - 1]));
    BackwardsRefs(stack[|stack| - 1]);
  }

  /** An attempt keeps the notes in order, and notes directions for its entries only. */
  lemma {:induction false} AttemptGood(p: Platform, files: Files, pending: Pending, ordered: Command, d: Direction, trials: Trials)
    requires GoodFiles(files) && forall i :: 0 <= i < |ordered| ==> Proper(ordered[i])
    ensures var r := Attempt(p, files, pending, ordered, d, trials);
            GoodFiles(r.files) && r.files.Keys == files.Keys && r.pending.Keys <= pending.Keys + Refs(ordered)
    decreases ordered
  {
    if ordered != [] {
      var e := ordered[0];
      var t := Try(p, files, pending, e, d, trials(e.ref));
      TryKeeps(p, files, pending, e, d, trials(e.ref));
      assert ordered == [e] + ordered[1..];
      RefsAppend([e], ordered[1..]);
      OneRef(e);
      if !t.stopped { AttemptGood(p, t.files, t.pending, ordered[1..], d, trials); }
    }
  }

  lemma {:induction false} ShiftedSame(files: Files, waiting: Waiting, moved: set<nat>, used: set<nat>, created: nat)
    ensures Taken(files, Shifted(waiting, moved)) == Taken(files, waiting)
    ensures GoodWaiting(files, waiting) ==> GoodWaiting(files, Shifted(waiting, moved))
    ensures Truthful(files, Shifted(waiting, moved)) <==> Truthful(files, waiting)
    ensures Unshared(waiting, used, created) ==> Unshared(Shifted(waiting, moved), used, created)
  {
    var shifted := Shifted(waiting, moved);
    forall f | f in files ensures Taken(files, shifted)[f] == Taken(files, waiting)[f] {}
    forall f | f in waiting ensures IsWaiting(shifted[f]) <==> IsWaiting(waiting[f]) {}
    forall f | f in waiting && f in files ensures TruthfulAt(files[f].note, shifted[f]) <==> TruthfulAt(files[f].note, waiting[f]) {}
  }

  lemma {:induction false} EditsSound(p: Platform, s: Session, groups: seq<Group>)
    requires Sound(s) && OneGroupEach(groups)
    ensures Sound(Next(p, s, Edits(groups)))
  {
    var r, used := WriteAll(p, s.files, s.waiting, groups, s.created), Used(s.stacks, s.pending);
    WriteAllGood(p, s.files, s.waiting, groups, s.created);
    AllShared(p, s.files, s.waiting, groups, s.created, used);
    AllOnePerFile(p, s.files, s.waiting, groups, s.created);
    RecordApart(s.stacks, r.entries);
    RecordUsed(s.stacks, s.pending, r.entries);
    FewerUsed(r.waiting, Used(Record(s.stacks, r.entries), s.pending), used + Refs(r.entries), s.created + |groups|);
  }

  lemma {:induction false} ReversedUsed(p: Platform, s: Session, d: Direction, trials: Trials)
    requires GoodFiles(s.files) && GoodStacks(s.stacks) && Source(s.stacks, d) != []
    ensures var r := Attempt(p, s.files, s.pending, Ordered(s.stacks, d), d, trials);
            && GoodFiles(r.files) && r.files.Keys == s.files.Keys
            && Used(Publish(s.stacks, d, r.done), r.pending) <= Used(s.stacks, s.pending)
  {
    OrderedProper(s.stacks, d);
    AttemptGood(p, s.files, s.pending, Ordered(s.stacks, d), d, trials);
    OrderedRefs(s.stacks, d);
    TimelineFixed(s.stacks, d, Attempt(p, s.files, s.pending, Ordered(s.stacks, d), d, trials).done);
  }

  lemma {:induction false} StillWaiting(files: Files, files': Files, waiting: Waiting, moved: set<nat>, used: set<nat>, used': set<nat>, created: nat)
    requires GoodWaiting(files, waiting) && Unshared(waiting, used, created) && used' <= used && GoodFiles(files') && files'.Keys == files.Keys
    ensures GoodWaiting(files', Shifted(waiting, moved)) && Unshared(Shifted(waiting, moved), used', created)
  {
    FewerUsed(waiting, used', used, created);
    forall f | f in waiting ensures f in files' && IsWaiting(waiting[f]) { assert f in files; }
    assert GoodWaiting(files', waiting);
    ShiftedSame(files', waiting, moved, used', created);
  }

  lemma {:induction false} ReversingSound(p: Platform, s: Session, d: Direction, trials: Trials)
    requires Sound(s) && GoodStacks(s.stacks)
    ensures Sound(Next(p, s, Reversing(d, trials)))
  {
    if Source(s.stacks, d) != [] && !Missing(s.files, Ordered(s.stacks, d)) {
      var ordered := Ordered(s.stacks, d);
      var r := Attempt(p, s.files, s.pending, ordered, d, trials);
      ReversedUsed(p, s, d, trials);
      PublishApart(s.stacks, d, r.done);
      StillWaiting(s.files, r.files, s.waiting, Renamed(ordered[..r.done]), Used(s.stacks, s.pending), Used(Publish(s.stacks, d, r.done), r.pending), s.created);
    }
  }

  lemma {:induction false} RenamingUsed(s: Session, e: Entry)
    requires Sound(s) && e.ref == s.created
    ensures Unshared(s.waiting, Used(Record(s.stacks, [e]), s.pending), s.created + 1) && e.ref !in Used(s.stacks, s.pending)
  {
    var used := Used(s.stacks, s.pending);
    OneRef(e);
    RecordUsed(s.stacks, s.pending, [e]);
    assert Unshared(s.waiting, used + {e.ref}, s.created + 1);
    FewerUsed(s.waiting, Used(Record(s.stacks, [e]), s.pending), used + {e.ref}, s.created + 1);
  }

  lemma {:induction false} RenamingSound(p: Platform, s: Session, file: nat, dest: string, trial: Trial)
    requires Sound(s)
    ensures var t := Next(p, s, Renaming(file, dest, trial)); Sound(t) && (Truthful(t.files, t.waiting) <==> Truthful(s.files, s.waiting))
  {
    if Renames(s, file, dest, trial) {
      var e := Entry(s.created, file, Moved(s.files[file].path, dest));
      var files' := s.files[file := File(dest, s.files[file].note)];
      RenamingUsed(s, e);
      RecordApart(s.stacks, [e]);
      MovedGood(s.files, s.waiting, file, dest);
      MovedTruthful(s.files, s.waiting, file, dest);
      ShiftedSame(files', s.waiting, {file}, Used(Record(s.stacks, [e]), s.pending), s.created + 1);
    }
  }

  lemma {:induction false} MovedTruthful(files: Files, waiting: Waiting, file: nat, dest: string)
    requires file in files
    ensures Truthful(files[file := File(dest, files[file].note)], waiting) <==> Truthful(files, waiting)
  {
    var files' := files[file := File(dest, files[file].note)];
    forall f | f in waiting && f in files ensures TruthfulAt(files'[f].note, waiting[f]) <==> TruthfulAt(files[f].note, waiting[f]) {}
  }

  /** The stacks hold entries that can be reversed, each object once in a command. */
  predicate Valid(s: Session) { Sound(s) && ValidStacks(s.stacks) }

  lemma {:induction false} RecordValid(h: Stacks, entries: Command)
    requires ValidStacks(h) && OwnRefs(entries) && forall i :: 0 <= i < |entries| ==> Proper(entries[i])
    ensures ValidStacks(Record(h, entries))
  {
    if entries != [] {
      var undo := h.undo + [entries];
      FlatTop(undo);
      assert undo[..|h.undo|] == h.undo;
      forall i | 0 <= i < |Flat(undo)| ensures Proper(Flat(undo)[i]) {
        if i < |Flat(h.undo)| { assert Flat(undo)[i] == Timeline(h)[i]; }
      }
      FlatFirst(undo);
      assert forall i :: 0 <= i < |Flat(undo[1..])| ==> Flat(undo[1..])[i] == Flat(undo)[|undo[0]| + i];
    }
  }

  /** Every call keeps the session valid, whatever fails and whatever the drafts hold. */
  lemma {:induction false} ValidStays(p: Platform, s: Session, call: Call)
    requires Valid(s) && Callable(call)
    ensures Valid(Next(p, s, call))
  {
    match call {
      case Edits(groups) =>
        EditsSound(p, s, groups);
        WriteAllGood(p, s.files, s.waiting, groups, s.created);
        AllShared(p, s.files, s.waiting, groups, s.created, {});
        RecordValid(s.stacks, Entries(p, s, call));
      case Renaming(file, dest, trial) =>
        RenamingSound(p, s, file, dest, trial);
        if Renames(s, file, dest, trial) {
          OneRef(Entry(s.created, file, Moved(s.files[file].path, dest)));
          RecordValid(s.stacks, Entries(p, s, call));
        }
      case Reversing(d, trials) =>
        ReversingSound(p, s, d, trials);
        if !Barred(s, d) { PublishValid(s.stacks, d, Attempt(p, s.files, s.pending, Ordered(s.stacks, d), d, trials).done); }
    }
  }

  // ----- edits and renames, without the edits that wait

  lemma {:induction false} EditsSettle(p: Platform, s: Session, groups: seq<Group>)
    requires Sound(s) && Truthful(s.files, s.waiting)
    ensures var call := Edits(groups); Happens(Settled(s), Settled(Next(p, s, call)), p, Recorded(Entries(p, s, call)))
  {
    var r := WriteAll(p, s.files, s.waiting, groups, s.created);
    WriteAllSettles(p, s.files, s.waiting, groups, s.created);
    AllShared(p, s.files, s.waiting, groups, s.created, Used(s.stacks, s.pending));
    TakenView(r.files, r.waiting);
  }

  lemma {:induction false} RenamingSettles(p: Platform, s: Session, file: nat, dest: string, trial: Trial)
    requires Sound(s) && Truthful(s.files, s.waiting)
    ensures var call := Renaming(file, dest, trial); Happens(Settled(s), Settled(Next(p, s, call)), p, Recorded(Entries(p, s, call)))
  {
    TakenView(s.files, s.waiting);
    if Renames(s, file, dest, trial) {
      var e := Entry(s.created, file, Moved(s.files[file].path, dest));
      RenamingCarries(s.files, s.waiting, e);
      RenamedFresh(s, e);
      RenamedSettled(p, s, file, dest, trial);
    } else {
      CarriesNone(View(Taken(s.files, s.waiting)));
      NoRefs();
    }
  }

  lemma {:induction false} RenamedFresh(s: Session, e: Entry)
    requires Sound(s) && e.ref == s.created
    ensures Fresh(s.stacks, s.pending, [e])
  {
    OneRef(e);
    RenamingUsed(s, e);
  }

  lemma {:induction false} RenamedSettled(p: Platform, s: Session, file: nat, dest: string, trial: Trial)
    requires Renames(s, file, dest, trial)
    ensures var es := Entries(p, s, Renaming(file, dest, trial));
            Settled(Next(p, s, Renaming(file, dest, trial)))
            == Situation(Rebased(s.base, s.stacks, es), Record(s.stacks, es), Taken(s.files[file := File(dest, s.files[file].note)], s.waiting), s.pending)
  {
    ShiftedSame(s.files[file := File(dest, s.files[file].note)], s.waiting, {file}, {}, 0);
  }

  lemma {:induction false} RenamingCarries(files: Files, waiting: Waiting, e: Entry)
    requires GoodFiles(files) && e.file in files && e.change.Moved? && e.change.from == files[e.file].path
    ensures var files' := files[e.file := File(e.change.dest, files[e.file].note)];
            GoodFiles(Taken(files', waiting)) && Carries(View(Taken(files, waiting)), [e], View(Taken(files', waiting)))
  {
    var files', was := files[e.file := File(e.change.dest, files[e.file].note)], View(Taken(files, waiting));
    TakenView(files, waiting);
    TakenView(files', waiting);
    RenamedView(files, waiting, e.file, e.change.dest);
    CarriesOne(was, e, View(Taken(files', waiting)));
  }

  // ----- which calls are careful

  /** No reversal is drafted, or the one that is goes in this direction. */
  ghost predicate Settling(s: Session, d: Direction) { InStep(Settled(s)) || FollowsAs(Settled(s), Some(d)) }

  /** There is nothing to reverse, or a note is gone. */
  predicate Barred(s: Session, d: Direction) { Source(s.stacks, d) == [] || Missing(s.files, Ordered(s.stacks, d)) }

  ghost predicate UnmixedIn(s: Session, d: Direction)
    requires !Barred(s, d)
  {
    Unmixed(Taken(s.files, s.waiting), s.pending, s.waiting, Ordered(s.stacks, d), d, Present(s.base, s.stacks))
  }

  /** A call that records something waits until no reversal is drafted. A reversal leaves the
      edits that wait as drafted as they are; and it retries a drafted one, or none is, or
      it does nothing. */
  ghost predicate Careful(p: Platform, s: Session, call: Call) {
    match call
    case Reversing(d, trials) =>
      Barred(s, d) ||
      var ordered := Ordered(s.stacks, d);
      && Steady(s.files, s.pending, s.waiting, ordered, d, trials)
      && ((Settling(s, d) && UnmixedIn(s, d)) || ordered == [] || Idle(s.files, s.pending, ordered[0], d, trials(ordered[0].ref)))
    case _ => InStep(Settled(s)) || Entries(p, s, call) == []
  }

  // ----- edits and renames

  lemma {:induction false} RecordingFollows(p: Platform, s: Session, call: Call)
    requires Follow(s) && Callable(call) && !call.Reversing?
    ensures Follow(Next(p, s, call)) <==> Careful(p, s, call)
  {
    match call {
      case Edits(groups) => EditsSound(p, s, groups); WriteAllSettles(p, s.files, s.waiting, groups, s.created); EditsSettle(p, s, groups);
      case Renaming(file, dest, trial) => RenamingSound(p, s, file, dest, trial); RenamingSettles(p, s, file, dest, trial);
    }
    RecordedExactly(p, Settled(s), Settled(Next(p, s, call)), Entries(p, s, call));
  }

  lemma {:induction false} RecordedExactly(p: Platform, s: Situation, t: Situation, entries: Command)
    requires Following(s) && Happens(s, t, p, Recorded(entries))
    ensures Following(t) <==> InStep(s) || entries == []
  {
    if InStep(s) { CommandFollows(p, s, t, Recorded(entries)); } else { EditAfterDraft(p, s, t, entries); }
  }

  // ----- undo and redo

  lemma {:induction false} FollowsAlike(base: World, h: Stacks, files: Files, files': Files, pending: Pending, half: Option<Direction>)
    requires Follows(base, h, files, pending, half) && GoodFiles(files') && View(files') == View(files)
    ensures Follows(base, h, files', pending, half)
  {
  }

  lemma {:induction false} SettledHalf(s: Situation, d: Direction) returns (half: Option<Direction>)
    requires Following(s) && (InStep(s) || FollowsAs(s, Some(d)))
    ensures FollowsAs(s, half) && half in {None, Some(d)}
  {
    if InStep(s) {
      var any :| FollowsAs(s, any);
      HalfIsReal(s, any);
      half := None;
    } else { half := Some(d); }
  }

  lemma {:induction false} OrderedReversible(s: Situation, d: Direction)
    requires Following(s) && Apart(s.stacks.undo) && Apart(s.stacks.redo) && Source(s.stacks, d) != []
    ensures Reversible(Ordered(s.stacks, d), d, Present(s.base, s.stacks))
  {
    OrderedReady(s.base, s.stacks, d, |Ordered(s.stacks, d)|);
    Whole(Ordered(s.stacks, d));
    OrderedProper(s.stacks, d);
    OrderedOwned(s.stacks, d);
    OrderedApart(s.stacks, d);
  }

  lemma {:induction false} NextSettled(p: Platform, s: Session, d: Direction, trials: Trials)
    requires !Barred(s, d)
    ensures var r, t := Attempt(p, s.files, s.pending, Ordered(s.stacks, d), d, trials), Next(p, s, Reversing(d, trials));
            Settled(t) == Situation(s.base, Publish(s.stacks, d, r.done), Taken(r.files, s.waiting), r.pending)
    ensures var r, t := Attempt(p, s.files, s.pending, Ordered(s.stacks, d), d, trials), Next(p, s, Reversing(d, trials));
            Truthful(t.files, t.waiting) <==> Truthful(r.files, s.waiting)
  {
    var r := Attempt(p, s.files, s.pending, Ordered(s.stacks, d), d, trials);
    ShiftedSame(r.files, s.waiting, Renamed(Ordered(s.stacks, d)[..r.done]), {}, 0);
  }

  /** A reversal from settled notes, or a retry, beside drafted edits. */
  lemma {:induction false} SettlingFollows(p: Platform, s: Session, d: Direction, trials: Trials)
    requires Follow(s) && !Barred(s, d) && Settling(s, d) && UnmixedIn(s, d)
    ensures Following(Settled(Next(p, s, Reversing(d, trials))))
  {
    var ordered, taken, w := Ordered(s.stacks, d), Taken(s.files, s.waiting), Present(s.base, s.stacks);
    var half := SettledHalf(Settled(s), d);
    OrderedReversible(Settled(s), d);
    StartsAt(s.base, s.stacks, taken, s.pending, half, d);
    TakenView(s.files, s.waiting);
    var mirrored := AttemptMirrors(p, taken, s.files, s.pending, s.waiting, ordered, d, trials, w);
    var half' := HistoryFollows(p, s.base, s.stacks, taken, s.pending, half, d, mirrored);
    var m, r := Attempt(p, taken, s.pending, ordered, d, mirrored), Attempt(p, s.files, s.pending, ordered, d, trials);
    TakenView(r.files, s.waiting);
    NextSettled(p, s, d, trials);
    TimelineFixed(s.stacks, d, r.done);
    FollowsAlike(s.base, Publish(s.stacks, d, m.done), m.files, Taken(r.files, s.waiting), m.pending, half');
    assert FollowsAs(Settled(Next(p, s, Reversing(d, trials))), half');
  }

  lemma {:induction false} TakenAlike(files: Files, files': Files, waiting: Waiting)
    requires GoodFiles(files) && GoodFiles(files') && View(files') == View(files)
    ensures GoodFiles(Taken(files', waiting)) && View(Taken(files', waiting)) == View(Taken(files, waiting))
  {
    TakenView(files, waiting);
    TakenView(files', waiting);
    assert View(files).Keys == files.Keys && View(files').Keys == files'.Keys;
    forall f | f in files ensures files'[f].path == files[f].path && FieldsOf(files'[f].note) == FieldsOf(files[f].note) {
      assert View(files)[f] == View(files')[f];
    }
    assert View(Taken(files', waiting)) == View(Taken(files, waiting));
  }

  /** A reversal that does nothing leaves a drafted one as it is. */
  lemma {:induction false} IdleFollows(p: Platform, s: Session, d: Direction, trials: Trials)
    requires Follow(s) && !Barred(s, d) && Idle(s.files, s.pending, Ordered(s.stacks, d)[0], d, trials(Ordered(s.stacks, d)[0].ref))
    ensures Following(Settled(Next(p, s, Reversing(d, trials))))
  {
    var ordered, h := Ordered(s.stacks, d), s.stacks;
    OrderedProper(h, d);
    OrderedSome(h, d);
    QuietAttempt(p, s.files, s.pending, ordered, d, trials);
    AttemptGood(p, s.files, s.pending, ordered, d, trials);
    var r := Attempt(p, s.files, s.pending, ordered, d, trials);
    TakenAlike(s.files, r.files, s.waiting);
    NextSettled(p, s, d, trials);
    var half :| FollowsAs(Settled(s), half);
    IdleKeeps(p, s, d, trials, half);
    FollowsAlike(s.base, h, Taken(s.files, s.waiting), Taken(r.files, s.waiting), r.pending, half);
    assert FollowsAs(Settled(Next(p, s, Reversing(d, trials))), half);
  }

  lemma {:induction false} IdleKeeps(p: Platform, s: Session, d: Direction, trials: Trials, half: Option<Direction>)
    requires Follow(s) && !Barred(s, d) && Idle(s.files, s.pending, Ordered(s.stacks, d)[0], d, trials(Ordered(s.stacks, d)[0].ref))
    requires FollowsAs(Settled(s), half)
    ensures var r := Attempt(p, s.files, s.pending, Ordered(s.stacks, d), d, trials);
            Follows(s.base, s.stacks, Taken(s.files, s.waiting), r.pending, half)
  {
    var ordered, h := Ordered(s.stacks, d), s.stacks;
    OrderedProper(h, d);
    OrderedSome(h, d);
    PublishNext(h, d, 0);
    if half == Some(Opposite(d)) {
      SidesApart(h, d);
      AttemptLeaves(p, s.files, s.pending, ordered, d, trials, Upcoming(h, Opposite(d)).ref);
    } else {
      IdlePending(p, s.files, s.pending, ordered, d, trials);
    }
  }

  lemma {:induction false} IdlePending(p: Platform, files: Files, pending: Pending, ordered: Command, d: Direction, trials: Trials)
    requires GoodFiles(files) && ordered != [] && Proper(ordered[0]) && Idle(files, pending, ordered[0], d, trials(ordered[0].ref))
    ensures Attempt(p, files, pending, ordered, d, trials).pending in {pending, pending[ordered[0].ref := d]}
  {
    IdleTry(p, files, pending, ordered[0], d, trials(ordered[0].ref));
    TryKeeps(p, files, pending, ordered[0], d, trials(ordered[0].ref));
  }

  lemma {:induction false} SteadyExactly(p: Platform, s: Session, d: Direction, trials: Trials)
    requires Follow(s) && !Barred(s, d)
    ensures var t := Next(p, s, Reversing(d, trials));
            Truthful(t.files, t.waiting) <==> Steady(s.files, s.pending, s.waiting, Ordered(s.stacks, d), d, trials)
  {
    OrderedReversible(Settled(s), d);
    AttemptTruthful(p, s.files, s.pending, s.waiting, Ordered(s.stacks, d), d, trials);
    NextSettled(p, s, d, trials);
  }

  /** An undo or redo that is careful keeps the notes and the history in step. */
  lemma {:induction false} ReversingFollows(p: Platform, s: Session, d: Direction, trials: Trials)
    requires Follow(s) && Careful(p, s, Reversing(d, trials))
    ensures Follow(Next(p, s, Reversing(d, trials)))
  {
    if !Barred(s, d) {
      SteadyExactly(p, s, d, trials);
      ReversingSound(p, s, d, trials);
      OrderedSome(s.stacks, d);
      if Settling(s, d) && UnmixedIn(s, d) { SettlingFollows(p, s, d, trials); } else { IdleFollows(p, s, d, trials); }
    }
  }

  predicate NothingDrafted(waiting: Waiting) { forall f :: f in waiting ==> !waiting[f].drafted }

  lemma {:induction false} NothingTakenOut(files: Files, waiting: Waiting)
    requires NothingDrafted(waiting)
    ensures Taken(files, waiting) == files
  {
  }

  lemma {:induction false} PlainReverses(p: Platform, s: Session, d: Direction, trials: Trials)
    requires NothingDrafted(s.waiting) && !Barred(s, d)
    ensures Happens(Settled(s), Settled(Next(p, s, Reversing(d, trials))), p, Reversal(d, trials))
  {
    var r := Attempt(p, s.files, s.pending, Ordered(s.stacks, d), d, trials);
    NothingTakenOut(s.files, s.waiting);
    NothingTakenOut(r.files, s.waiting);
    NextSettled(p, s, d, trials);
  }

  // ----- main results

  /** No reversal waits to be retried where a drafted one or a drafted edit could hide it. */
  ghost predicate Clear(s: Session, call: Call) {
    call.Reversing? && !Barred(s, call.d) ==>
      if Settling(s, call.d) then UnmixedIn(s, call.d) else NoneWaits(s.pending, call.d) && NothingDrafted(s.waiting)
  }

  /** A call keeps the notes and the history in step exactly when it is careful. */
  lemma {:induction false} FollowsExactly(p: Platform, s: Session, call: Call)
    requires Follow(s) && Callable(call) && Clear(s, call)
    ensures Follow(Next(p, s, call)) <==> Careful(p, s, call)
  {
    match call {
      case Reversing(d, trials) =>
        if Careful(p, s, call) { ReversingFollows(p, s, d, trials); }
        else if Follow(Next(p, s, call)) { FollowsCarefully(p, s, d, trials); }
      case _ => RecordingFollows(p, s, call);
    }
  }

  lemma {:induction false} FollowsCarefully(p: Platform, s: Session, d: Direction, trials: Trials)
    requires Follow(s) && Clear(s, Reversing(d, trials)) && Follow(Next(p, s, Reversing(d, trials)))
    ensures Careful(p, s, Reversing(d, trials))
  {
    if !Barred(s, d) {
      SteadyExactly(p, s, d, trials);
      if !Settling(s, d) {
        PlainReverses(p, s, d, trials);
        NothingTakenOut(s.files, s.waiting);
        OtherAfterDraft(p, Settled(s), Settled(Next(p, s, Reversing(d, trials))), d, trials);
      }
    }
  }

  ghost predicate Takes(p: Platform, s: Session, t: Session, call: Call) { Callable(call) && Careful(p, s, call) && t == Next(p, s, call) }

  ghost predicate Run(p: Platform, states: seq<Session>, calls: seq<Call>) {
    |states| == |calls| + 1 && forall i :: 0 <= i < |calls| ==> Takes(p, states[i], states[i + 1], calls[i])
  }

  lemma {:induction false} CallFollows(p: Platform, s: Session, t: Session, call: Call)
    requires Follow(s) && Takes(p, s, t, call)
    ensures Follow(t)
  {
    if call.Reversing? { ReversingFollows(p, s, call.d, call.trials); } else { RecordingFollows(p, s, call); }
  }

  /** After any run of careful edits, renames, undos and redos, whatever fails, the notes
      without the edits that wait in drafts are what carrying out the undo stack makes of
      the base, or one upcoming entry is reversed in a draft. */
  lemma {:induction false} EveryRunFollows(p: Platform, states: seq<Session>, calls: seq<Call>)
    requires Run(p, states, calls) && Follow(states[0])
    ensures Follow(states[|states| - 1])
  {
    var good := s => Follow(s);
    var step := (s, call, t) => Takes(p, s, t, call);
    forall s, call, t {:trigger step(s, call, t)} | good(s) && step(s, call, t) ensures good(t) { CallFollows(p, s, t, call); }
    AlwaysGood(good, step, states, calls, |calls|);
  }

  /** What every step keeps holds after any number of steps. */
  lemma {:induction false} AlwaysGood<S(!new), C(!new)>(good: S -> bool, step: (S, C, S) -> bool, states: seq<S>, calls: seq<C>, n: nat)
    requires |states| == |calls| + 1 && n <= |calls| && good(states[0])
    requires forall i :: 0 <= i < |calls| ==> step(states[i], calls[i], states[i + 1])
    requires forall s, c, t {:trigger step(s, c, t)} :: good(s) && step(s, c, t) ==> good(t)
    ensures good(states[n])
  {
    if n > 0 {
      AlwaysGood(good, step, states, calls, n - 1);
      assert step(states[n - 1], calls[n - 1], states[n - 1 + 1]);
    }
  }

  function Fresh0(files: Files): Session { Session(View(files), Stacks([], []), files, map[], map[], 0) }

  /** A new controller is in step. */
  lemma {:induction false} Starts(files: Files)
    requires GoodFiles(files)
    ensures Follow(Fresh0(files)) && InStep(Settled(Fresh0(files)))
  {
    var s := Fresh0(files);
    NothingTakenOut(files, map[]);
    NoRefs();
    assert Timeline(s.stacks) == [];
    assert FollowsAs(Settled(s), None);
  }

  // ----- the retry of a first save

  function Retry(s: Session, f: nat): Call
    requires f in s.waiting
  {
    Edits([Group(f, s.waiting[f].edits, Saved)])
  }

  lemma {:induction false} OneGroup(p: Platform, files: Files, waiting: Waiting, g: Group, ref: nat)
    ensures var one := WriteOne(p, files, waiting, g, ref);
            WriteAll(p, files, waiting, [g], ref) == Wrote(one.files, one.waiting, if one.saved then one.entries else [], !one.saved)
  {
    assert [g][1..] == [];
    var one := WriteOne(p, files, waiting, g, ref);
    assert one.entries + [] == one.entries;
  }

  lemma {:induction false} RetryWrites(p: Platform, files: Files, waiting: Waiting, f: nat, ref: nat)
    requires GoodWaiting(files, waiting) && Truthful(files, waiting) && f in waiting
    requires var u := waiting[f]; u.drafted && !u.moved && u.before != u.after
    ensures var r := WriteAll(p, files, waiting, [Group(f, waiting[f].edits, Saved)], ref);
            !r.failed && r.entries == [Held(f, waiting[f])] && r.waiting == waiting - {f} && View(r.files) == View(files)
  {
    var u, g, note := waiting[f], Group(f, waiting[f].edits, Saved), files[f].note;
    OneGroup(p, files, waiting, g, ref);
    FoundAgain(p, note, u.edits, u);
    AgainDraws(p, note, waiting, g, ref);
    SameView(files, f, Draw(p, note, waiting, g, ref).next);
  }

  lemma {:induction false} SameView(files: Files, f: nat, next: Note)
    requires f in files && FieldsOf(next) == FieldsOf(files[f].note)
    ensures View(files[f := File(files[f].path, next)]) == View(files)
  {
  }

  /** The retry of an edit that waits in a draft records exactly the entry of the first
      attempt, from what the note was before it, and changes no note; with no other edit
      in a draft, notes and stacks say the same again. */
  lemma {:induction false} RetryRecords(p: Platform, s: Session, f: nat)
    requires Follow(s) && InStep(Settled(s)) && f in s.waiting
    requires var u := s.waiting[f]; u.drafted && !u.moved && u.before != u.after
    ensures var t, e := Next(p, s, Retry(s, f)), Held(f, s.waiting[f]);
            && Entries(p, s, Retry(s, f)) == [e] && t.stacks == Record(s.stacks, [e])
            && t.waiting == s.waiting - {f} && View(t.files) == View(s.files) && Follow(t)
            && (NothingDrafted(s.waiting - {f}) ==> View(t.files) == Present(t.base, t.stacks))
  {
    RetryWrites(p, s.files, s.waiting, f, s.created);
    RecordingFollows(p, s, Retry(s, f));
    if NothingDrafted(s.waiting - {f}) { RetrySettles(p, s, f); }
  }

  lemma {:induction false} RetrySettles(p: Platform, s: Session, f: nat)
    requires Follow(s) && InStep(Settled(s)) && f in s.waiting
    requires NothingDrafted(Next(p, s, Retry(s, f)).waiting)
    ensures var t := Next(p, s, Retry(s, f)); View(t.files) == Present(t.base, t.stacks)
  {
    var t, g := Next(p, s, Retry(s, f)), Group(f, s.waiting[f].edits, Saved);
    NothingTakenOut(t.files, t.waiting);
    EditsSettle(p, s, [g]);
    RecordedPresent(Settled(s), Settled(t), p, Entries(p, s, Retry(s, f)));
  }

  lemma {:induction false} RecordedPresent(s: Situation, t: Situation, p: Platform, entries: Command)
    requires Following(s) && InStep(s) && Happens(s, t, p, Recorded(entries))
    ensures InStep(t)
  {
    if entries != [] { PresentRecorded(s.base, s.stacks, entries); }
  }

  /** A first save that fails in the draft: nothing is recorded and the edit waits, with
      what the note was before it. */
  lemma {:induction false} DraftWaits(p: Platform, s: Session, f: nat, edits: seq<Edit>)
    requires Follow(s) && f in s.files && f !in s.waiting
    ensures var call := Edits([Group(f, edits, Drafted)]);
            var t := Next(p, s, call);
            && Entries(p, s, call) == [] && t.stacks == s.stacks && f in t.waiting
            && var u := t.waiting[f];
               u.drafted && !u.moved && u.edits == edits && Shows(s.files[f].note, u.before) && Shows(t.files[f].note, u.after)
  {
    var g := Group(f, edits, Drafted);
    OneGroup(p, s.files, s.waiting, g, s.created);
    FirstDraws(p, s.files[f].note, s.waiting, g, s.created);
  }

  // ----- edits that are in the way

  /** While an edit of a note waits, another edit of it is refused, and changes nothing. */
  lemma {:induction false} OthersBlocked(p: Platform, s: Session, groups: seq<Group>)
    requires groups != [] && groups[0].file in s.waiting && !Retries(s.waiting, groups[0])
    ensures var t := Next(p, s, Edits(groups));
            WriteAll(p, s.files, s.waiting, groups, s.created).failed
            && t.files == s.files && t.waiting == s.waiting && t.stacks == s.stacks && t.base == s.base
  {
  }

  lemma {:induction false} StrandedWrites(p: Platform, files: Files, waiting: Waiting, groups: seq<Group>, ref: nat, f: nat)
    requires f in waiting && waiting[f].moved
    ensures var r := WriteAll(p, files, waiting, groups, ref);
            f in r.waiting && r.waiting[f] == waiting[f] && (f in files ==> f in r.files && r.files[f] == files[f])
            && forall i :: 0 <= i < |r.entries| ==> r.entries[i].file != f
    decreases groups
  {
    if groups != [] {
      var one := WriteOne(p, files, waiting, groups[0], ref);
      OneFile(p, files, waiting, groups[0], ref);
      StrandedOne(p, files, waiting, groups[0], ref, f);
      if one.saved { StrandedWrites(p, one.files, one.waiting, groups[1..], ref + 1, f); }
    }
  }

  lemma {:induction false} StrandedOne(p: Platform, files: Files, waiting: Waiting, g: Group, ref: nat, f: nat)
    requires f in waiting && waiting[f].moved
    ensures var one := WriteOne(p, files, waiting, g, ref);
            f in one.waiting && one.waiting[f] == waiting[f] && (f in files ==> f in one.files && one.files[f] == files[f])
            && (g.file == f ==> one.entries == [] && !one.saved)
  {
  }

  ghost predicate Ran(p: Platform, states: seq<Session>, calls: seq<Call>) {
    |states| == |calls| + 1 && forall i :: 0 <= i < |calls| ==> states[i + 1] == Next(p, states[i], calls[i])
  }

  lemma {:induction false} StrandedCall(p: Platform, s: Session, call: Call, f: nat)
    requires f in s.waiting && s.waiting[f].moved
    ensures var t := Next(p, s, call); f in t.waiting && t.waiting[f] == s.waiting[f]
    ensures call.Edits? ==> forall i :: 0 <= i < |Entries(p, s, call)| ==> Entries(p, s, call)[i].file != f
  {
    if call.Edits? { StrandedWrites(p, s.files, s.waiting, call.groups, s.created, f); }
  }

  /** Once a note is renamed while an edit of it waits, no run of calls whatever records
      that edit or any other edit of the note: they are all refused. */
  lemma {:induction false} RenameStrands(p: Platform, states: seq<Session>, calls: seq<Call>, f: nat, n: nat)
    requires Ran(p, states, calls) && 0 < n <= |calls| && calls[0].Renaming? && calls[0].file == f
    requires f in states[0].waiting && Renames(states[0], f, calls[0].dest, calls[0].trial)
    ensures f in states[n].waiting && states[n].waiting[f] == states[0].waiting[f].(moved := true)
    ensures n < |calls| && calls[n].Edits? ==> forall i :: 0 <= i < |Entries(p, states[n], calls[n])| ==> Entries(p, states[n], calls[n])[i].file != f
  {
    assert states[n - 1 + 1] == Next(p, states[n - 1], calls[n - 1]);
    if n > 1 {
      RenameStrands(p, states, calls, f, n - 1);
      StrandedCall(p, states[n - 1], calls[n - 1], f);
    }
    if n < |calls| { StrandedCall(p, states[n], calls[n], f); }
  }
}
