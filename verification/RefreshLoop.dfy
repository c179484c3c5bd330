/** The refresh loop of the Base controller.

    As in the query runner, an event is one uninterrupted stretch of code, and any
    enabled event may come next. `trail` records what can be observed.
 */
module RefreshLoop {

  /** Where one turn of the inner `refresh` waits; `epoch` is the one it began in. */
  datatype Phase =
    | Reading(epoch: nat)                     // of the source
    | Empty(epoch: nat)                       // the definition again, for a Base without views
    | Verifying(epoch: nat)                   // of the configuration read
    | Verified(epoch: nat)                    // the verification has returned
    | Querying(epoch: nat)                    // the document service
    | Projected(epoch: nat, version: nat)     // the service has answered and its pin closes
    | Observing(epoch: nat, version: nat)     // the definition, after the query
    | Witnessing(epoch: nat, version: nat)    // the current note, after the query
    | Local(epoch: nat)                       // the current note, without a service
    | Failing(epoch: nat)                     // in `catch`
    | Finished                                // the loop looks at `requested` next

  datatype Kind = Updating | Emptied | Served | Computed | Error | Again | Restored

  /** What a turn has waited for since it last compared its epoch. */
  datatype Wait = Nothing | Return | Current

  datatype Mark =
    | Requested
    | Begun(skipped: bool)
    | Published(kind: Kind, version: nat, epoch: nat, now: nat, fenced: bool, since: Wait)

  /** `loops` are the running `do … while` loops, however many there are. */
  datatype State = State(
    requested: bool, refreshing: bool, disposed: bool, suspended: bool, visible: bool, stale: bool, timer: bool,
    epoch: nat, version: nat, shown: nat, settled: nat, updating: bool,
    loops: seq<Phase>, trail: seq<Mark>)

  const START := State(false, false, false, false, true, true, true, 0, 0, 0, 0, false, [], [])

  // ----- the controller's functions

  function Note(s: State, m: Mark): State { s.(trail := s.trail + [m]) }

  /** `schedule`. */
  function Schedule(s: State): State {
    if s.disposed || s.suspended || !s.visible then s else s.(timer := true)
  }

  /** `publish` of a state of the given version. */
  function Publish(s: State, kind: Kind, version: nat, epoch: nat, since: Wait): State {
    if s.suspended then s
    else
      Note(s.(shown := version, updating := kind == Updating, settled := if kind == Updating then s.settled else version),
           Published(kind, version, epoch, s.epoch, s.disposed, since))
  }

  function At(s: State, i: nat, phase: Phase): State
    requires i < |s.loops|
  {
    s.(loops := s.loops[i := phase])
  }

  /** The start of one turn of the inner `refresh`. */
  function Begin(s: State, i: nat): State
    requires i < |s.loops|
  {
    var s' := s.(requested := false);
    if s.disposed || !s.visible then Note(At(s', i, Finished), Begun(true))
    else
      var begun := Note(At(s', i, Reading(s.epoch)), Begun(false));
      if s.updating then begun else Publish(begun, Updating, s.shown, s.epoch, Nothing)
  }

  /** `refresh`. */
  function AfterRefresh(s: State): State {
    if s.suspended then s
    else
      var s' := Note(s.(stale := true, timer := false, requested := true), Requested);
      if s.refreshing then s'
      else Begin(s'.(refreshing := true, loops := s'.loops + [Finished]), |s'.loops|)
  }

  predicate Fenced(s: State, epoch: nat) { s.disposed || s.suspended || epoch != s.epoch }

  /** A fenced turn ends and leaves a later refresh to the timer. */
  function Retire(s: State, i: nat): State
    requires i < |s.loops|
  {
    Schedule(At(s, i, Finished))
  }

  /** The end of a turn that succeeded; an unchanged result is published again
      with the version it had. */
  function Settle(s: State, i: nat, kind: Kind, version: nat, epoch: nat, since: Wait, same: bool): State
    requires i < |s.loops|
  {
    var done := At(s.(stale := false), i, Finished);
    if same then Publish(done, if kind == Computed then Computed else Again, s.settled, epoch, since)
    else Publish(done.(version := version), kind, version, epoch, since)
  }

  /** From the configuration read to the next wait: the query of the service, the
      current note when one is pinned, or none at all. */
  function Proceed(s: State, i: nat, epoch: nat, since: Wait, service: bool, context: bool, same: bool): State
    requires i < |s.loops|
  {
    if service then At(s, i, Querying(epoch))
    else if context then At(s, i, Local(epoch))
    else Settle(s, i, Computed, s.version + 1, epoch, since, same)
  }

  function Without(loops: seq<Phase>, i: nat): seq<Phase>
    requires i < |loops|
  {
    loops[..i] + loops[i + 1..]
  }

  /** The loop's condition, and its `finally`, in one continuation. */
  function Turn(s: State, i: nat): State
    requires i < |s.loops|
  {
    if s.requested && !s.disposed then Begin(s, i)
    else s.(refreshing := false, loops := Without(s.loops, i))
  }

  // ----- the events

  datatype Event =
    | Call                                 // refresh(), from anywhere
    | TimerFires
    | VaultChanges                         // or another selection, search or context
    | Shows | Hides | WakesHidden
    | Suspends | Disposes
    | Loads(loop: nat, empty: bool, verify: bool, service: bool, context: bool, same: bool) // the source has been read
    | Reobserves(loop: nat, same: bool)
    | Verifies(loop: nat)                  // the last check of the verification
    | Continues(loop: nat, service: bool, context: bool, same: bool)
    | Projects(loop: nat)                  // the service's rows become a result
    | Answers(loop: nat)                   // and the query returns
    | Observes(loop: nat, context: bool, same: bool)
    | Witnesses(loop: nat, same: bool)
    | Computes(loop: nat, same: bool) // without a service
    | Fails(loop: nat)                     // any wait that rejects
    | Reports(loop: nat)                   // the end of `catch`
    | Turns(loop: nat)

  predicate Enabled(s: State, e: Event) {
    match e
    case Call => true
    case TimerFires => s.timer
    case VaultChanges => !s.disposed
    case Shows => true
    case Hides => true
    case WakesHidden => !s.disposed && !s.suspended && !s.visible
    case Suspends => true
    case Disposes => true
    case Loads(i, _, _, _, _, _) => i < |s.loops| && s.loops[i].Reading?
    case Reobserves(i, _) => i < |s.loops| && s.loops[i].Empty?
    case Verifies(i) => i < |s.loops| && s.loops[i].Verifying?
    case Continues(i, _, _, _) => i < |s.loops| && s.loops[i].Verified?
    case Projects(i) => i < |s.loops| && s.loops[i].Querying?
    case Answers(i) => i < |s.loops| && s.loops[i].Projected?
    case Observes(i, _, _) => i < |s.loops| && s.loops[i].Observing?
    case Witnesses(i, _) => i < |s.loops| && s.loops[i].Witnessing?
    case Computes(i, _) => i < |s.loops| && s.loops[i].Local?
    case Fails(i) => i < |s.loops| && !s.loops[i].Finished? && !s.loops[i].Failing?
    case Reports(i) => i < |s.loops| && s.loops[i].Failing?
    case Turns(i) => i < |s.loops| && s.loops[i].Finished?
  }

  function Next(s: State, e: Event): State
    requires Enabled(s, e)
  {
    match e
    case Call => AfterRefresh(s)
    case TimerFires => AfterRefresh(s.(timer := false))
    case VaultChanges => Schedule(s.(stale := true, epoch := s.epoch + 1))
    case Shows => s.(visible := true)
    case Hides => s.(visible := false)
    case WakesHidden =>
      var s' := s.(timer := false, stale := s.stale || s.refreshing, epoch := if s.refreshing then s.epoch + 1 else s.epoch);
      if s.updating then Publish(s', Restored, s.settled, s'.epoch, Nothing) else s'
    case Suspends => if s.disposed || s.suspended then s else s.(suspended := true, timer := false, requested := false)
    case Disposes => s.(disposed := true, timer := false, epoch := s.epoch + 1, shown := s.settled, updating := false)
    case Loads(i, empty, verify, service, context, same) =>
      var epoch := s.loops[i].epoch;
      if Fenced(s, epoch) then Retire(s, i)
      else if empty then At(s, i, Empty(epoch))
      else if verify then At(s, i, Verifying(epoch))
      else Proceed(s, i, epoch, Nothing, service, context, same)
    case Reobserves(i, same) =>
      var epoch := s.loops[i].epoch;
      if Fenced(s, epoch) then Retire(s, i) else Settle(s, i, Emptied, s.version + 1, epoch, Nothing, same)
    case Verifies(i) =>
      var epoch := s.loops[i].epoch;
      At(s, i, if Fenced(s, epoch) then Failing(epoch) else Verified(epoch))
    case Continues(i, service, context, same) => Proceed(s, i, s.loops[i].epoch, Return, service, context, same)
    case Projects(i) => At(s, i, Projected(s.loops[i].epoch, s.version + 1))
    case Answers(i) =>
      var p := s.loops[i];
      if Fenced(s, p.epoch) then Retire(s, i) else At(s, i, Observing(p.epoch, p.version))
    case Observes(i, context, same) =>
      var p := s.loops[i];
      if Fenced(s, p.epoch) then Retire(s, i)
      else if context then At(s, i, Witnessing(p.epoch, p.version))
      else Settle(s, i, Served, p.version, p.epoch, Nothing, same)
    case Witnesses(i, same) =>
      var p := s.loops[i];
      if Fenced(s, p.epoch) then Retire(s, i) else Settle(s, i, Served, p.version, p.epoch, Nothing, same)
    case Computes(i, same) => Settle(s, i, Computed, s.version + 1, s.loops[i].epoch, Current, same)
    case Fails(i) => At(s, i, Failing(s.loops[i].epoch))
    case Reports(i) =>
      var epoch := s.loops[i].epoch;
      var done := At(s, i, Finished);
      if Fenced(s, epoch) then done else Publish(done, Error, s.shown, epoch, Nothing)
    case Turns(i) => Turn(s, i)
  }

  ghost predicate Reaches(events: seq<Event>, s: State) {
    if events == [] then s == START
    else
      var last := events[|events| - 1];
      exists before :: Reaches(events[..|events| - 1], before) && Enabled(before, last) && s == Next(before, last)
  }

  // ----- what the trail promises

  /** The last call of `refresh` has been answered by a turn begun after it. */
  function Answered(trail: seq<Mark>): bool {
    if trail == [] then true
    else
      match trail[|trail| - 1]
      case Requested => false
      case Begun(_) => true
      case Published(_, _, _, _, _, _) => Answered(trail[..|trail| - 1])
  }

  /** A state settled by a turn that compared its epoch in the same stretch. */
  predicate Compared(m: Mark) {
    m.Published? && (m.kind in {Served, Emptied, Error, Again} || (m.kind == Computed && m.since == Nothing))
  }

  /** Nothing settled on the path of the document service, or without any wait since
      the last comparison, is shown outside the epoch it was computed in, or after
      disposal. */
  predicate InEpoch(trail: seq<Mark>) {
    forall k :: 0 <= k < |trail| && Compared(trail[k]) ==> trail[k].epoch == trail[k].now && !trail[k].fenced
  }

  /** No version shown is above `bound`, and they never fall. */
  predicate Rising(trail: seq<Mark>, bound: nat) {
    && (forall k :: 0 <= k < |trail| && trail[k].Published? ==> trail[k].version <= bound)
    && (forall j, k :: 0 <= j < k < |trail| && trail[j].Published? && trail[k].Published? ==> trail[j].version <= trail[k].version)
  }

  /** The version of a projected result is the next one. */
  predicate Counted(p: Phase, version: nat) {
    p.Projected? || p.Observing? || p.Witnessing? ==> p.version == version + 1
  }

  predicate Inv(s: State) {
    && |s.loops| <= 1 && (s.refreshing <==> |s.loops| == 1)
    && (s.requested ==> (s.refreshing || s.disposed) && !s.suspended)
    && (Answered(s.trail) || s.requested || s.suspended || s.disposed)
    && s.shown == s.settled && s.settled <= s.version
    && (forall i :: 0 <= i < |s.loops| ==> Counted(s.loops[i], s.version))
    && InEpoch(s.trail) && Rising(s.trail, s.settled)
  }

  // ----- one mark

  lemma {:induction false} MarkKeeps(trail: seq<Mark>, m: Mark, bound: nat)
    requires InEpoch(trail) && Rising(trail, bound)
    requires m.Published? ==> bound <= m.version
    requires Compared(m) ==> m.epoch == m.now && !m.fenced
    ensures InEpoch(trail + [m]) && Rising(trail + [m], if m.Published? then m.version else bound)
    ensures Answered(trail + [m]) == if m.Requested? then false else if m.Begun? then true else Answered(trail)
  {
    assert (trail + [m])[..|trail|] == trail;
  }

  lemma {:induction false} PublishKeeps(s: State, kind: Kind, version: nat, epoch: nat, since: Wait)
    requires InEpoch(s.trail) && Rising(s.trail, s.settled) && s.settled <= version && (kind == Updating ==> version == s.settled)
    requires kind in {Served, Emptied, Error, Again} || (kind == Computed && since == Nothing) ==> epoch == s.epoch && !s.disposed
    ensures var t := Publish(s, kind, version, epoch, since);
            && InEpoch(t.trail) && Rising(t.trail, t.settled) && Answered(t.trail) == Answered(s.trail)
            && t.settled == (if s.suspended then s.settled else version)
            && (s.shown == s.settled ==> t.shown == t.settled)
  {
    MarkKeeps(s.trail, Published(kind, version, epoch, s.epoch, s.disposed, since), s.settled);
  }

  lemma {:induction false} BeginKeeps(s: State, i: nat)
    requires i < |s.loops| && |s.loops| == 1 && s.refreshing && !s.suspended
    requires s.shown == s.settled && s.settled <= s.version && InEpoch(s.trail) && Rising(s.trail, s.settled)
    ensures Inv(Begin(s, i))
  {
    if s.disposed || !s.visible {
      MarkKeeps(s.trail, Begun(true), s.settled);
    } else {
      var begun := Note(At(s.(requested := false), i, Reading(s.epoch)), Begun(false));
      MarkKeeps(s.trail, Begun(false), s.settled);
      if !s.updating { PublishKeeps(begun, Updating, s.shown, s.epoch, Nothing); }
    }
  }

  lemma {:induction false} RefreshKeeps(s: State)
    requires Inv(s)
    ensures Inv(AfterRefresh(s))
  {
    if !s.suspended {
      var asked := Note(s.(stale := true, timer := false, requested := true), Requested);
      MarkKeeps(s.trail, Requested, s.settled);
      if !s.refreshing {
        BeginKeeps(asked.(refreshing := true, loops := asked.loops + [Finished]), |asked.loops|);
      }
    }
  }

  lemma {:induction false} ShowKeeps(s: State, kind: Kind, version: nat, epoch: nat, since: Wait)
    requires Inv(s) && s.settled <= version <= s.version && kind != Updating
    requires kind in {Served, Emptied, Error, Again} || (kind == Computed && since == Nothing) ==> epoch == s.epoch && !s.disposed
    ensures Inv(Publish(s, kind, version, epoch, since))
  {
    PublishKeeps(s, kind, version, epoch, since);
  }

  lemma {:induction false} EndKeepsInv(s: State, i: nat, version: nat)
    requires Inv(s) && i < |s.loops| && s.version <= version
    ensures Inv(At(s.(stale := false), i, Finished).(version := version))
  {
  }

  lemma {:induction false} SettleKeeps(s: State, i: nat, kind: Kind, version: nat, epoch: nat, since: Wait, same: bool)
    requires Inv(s) && i < |s.loops| && version == s.version + 1 && kind in {Emptied, Served, Computed}
    requires kind != Computed || since == Nothing ==> !Fenced(s, epoch)
    ensures Inv(Settle(s, i, kind, version, epoch, since, same))
  {
    var done := At(s.(stale := false), i, Finished);
    EndKeepsInv(s, i, s.version);
    EndKeepsInv(s, i, version);
    if same { ShowKeeps(done, if kind == Computed then Computed else Again, s.settled, epoch, since); }
    else { ShowKeeps(done.(version := version), kind, version, epoch, since); }
  }

  lemma {:induction false} OutsideKeeps(s: State, e: Event)
    requires Inv(s) && Enabled(s, e)
    requires e.Call? || e.TimerFires? || e.VaultChanges? || e.Shows? || e.Hides? || e.WakesHidden? || e.Suspends? || e.Disposes?
    ensures Inv(Next(s, e))
  {
    if e.Call? { RefreshKeeps(s); }
    else if e.TimerFires? { RefreshKeeps(s.(timer := false)); }
    else if e.WakesHidden? {
      var s' := s.(timer := false, stale := s.stale || s.refreshing, epoch := if s.refreshing then s.epoch + 1 else s.epoch);
      if s.updating { PublishKeeps(s', Restored, s.settled, s'.epoch, Nothing); }
    }
  }

  lemma {:induction false} AtKeeps(s: State, i: nat, phase: Phase)
    requires Inv(s) && i < |s.loops| && Counted(phase, s.version)
    ensures Inv(At(s, i, phase))
  {
  }

  lemma {:induction false} RetireKeeps(s: State, i: nat)
    requires Inv(s) && i < |s.loops|
    ensures Inv(Retire(s, i))
  {
    AtKeeps(s, i, Finished);
  }

  /** Waits after which the turn goes on to another wait, or ends fenced. */
  lemma {:induction false} WaitKeeps(s: State, e: Event)
    requires Inv(s) && Enabled(s, e) && (e.Loads? || e.Projects? || e.Answers? || e.Fails?)
    ensures Inv(Next(s, e))
  {
    var i, p := e.loop, s.loops[e.loop];
    RetireKeeps(s, i);
    if e.Loads? { LoadKeeps(s, e); }
    else if e.Projects? { AtKeeps(s, i, Projected(p.epoch, s.version + 1)); }
    else if e.Answers? { AtKeeps(s, i, Observing(p.epoch, p.version)); }
    else { AtKeeps(s, i, Failing(p.epoch)); }
  }

  lemma {:induction false} LoadKeeps(s: State, e: Event)
    requires Inv(s) && Enabled(s, e) && e.Loads?
    ensures Inv(Next(s, e))
  {
    var i, epoch := e.loop, s.loops[e.loop].epoch;
    if Fenced(s, epoch) { RetireKeeps(s, i); }
    else if e.empty { AtKeeps(s, i, Empty(epoch)); }
    else if e.verify { AtKeeps(s, i, Verifying(epoch)); }
    else { ProceedKeeps(s, i, epoch, Nothing, e.service, e.context, e.same); }
  }

  lemma {:induction false} ProceedKeeps(s: State, i: nat, epoch: nat, since: Wait, service: bool, context: bool, same: bool)
    requires Inv(s) && i < |s.loops| && (since == Nothing ==> !Fenced(s, epoch))
    ensures Inv(Proceed(s, i, epoch, since, service, context, same))
  {
    if service || context {
      var phase := if service then Querying(epoch) else Local(epoch);
      ProceedWaits(s, i, epoch, since, service, context, same);
      AtKeeps(s, i, phase);
    } else {
      ProceedSettles(s, i, epoch, since, same);
      SettleKeeps(s, i, Computed, s.version + 1, epoch, since, same);
    }
  }

  lemma {:induction false} ProceedWaits(s: State, i: nat, epoch: nat, since: Wait, service: bool, context: bool, same: bool)
    requires i < |s.loops| && (service || context)
    ensures Proceed(s, i, epoch, since, service, context, same) == At(s, i, if service then Querying(epoch) else Local(epoch))
  {
  }

  lemma {:induction false} ProceedSettles(s: State, i: nat, epoch: nat, since: Wait, same: bool)
    requires i < |s.loops|
    ensures Proceed(s, i, epoch, since, false, false, same) == Settle(s, i, Computed, s.version + 1, epoch, since, same)
  {
  }

  lemma {:induction false} VerifyKeeps(s: State, e: Event)
    requires Inv(s) && Enabled(s, e) && (e.Verifies? || e.Continues?)
    ensures Inv(Next(s, e))
  {
    var i, epoch := e.loop, s.loops[e.loop].epoch;
    if e.Verifies? { AtKeeps(s, i, if Fenced(s, epoch) then Failing(epoch) else Verified(epoch)); }
    else { ProceedKeeps(s, i, epoch, Return, e.service, e.context, e.same); }
  }

  lemma {:induction false} EndKeeps(s: State, e: Event)
    requires Inv(s) && Enabled(s, e) && (e.Reobserves? || e.Observes? || e.Witnesses?)
    ensures Inv(Next(s, e))
  {
    var i, p := e.loop, s.loops[e.loop];
    if Fenced(s, p.epoch) { RetireKeeps(s, i); }
    else if e.Reobserves? { SettleKeeps(s, i, Emptied, s.version + 1, p.epoch, Nothing, e.same); }
    else {
      assert Counted(p, s.version);
      if e.Observes? && e.context { AtKeeps(s, i, Witnessing(p.epoch, p.version)); }
      else { SettleKeeps(s, i, Served, p.version, p.epoch, Nothing, e.same); }
    }
  }

  lemma {:induction false} TurnKeeps(s: State, i: nat)
    requires Inv(s) && i < |s.loops|
    ensures Inv(Turn(s, i))
  {
    if s.requested && !s.disposed { BeginKeeps(s, i); }
  }

  lemma {:induction false} ReportKeeps(s: State, i: nat)
    requires Inv(s) && i < |s.loops| && s.loops[i].Failing?
    ensures Inv(Next(s, Reports(i)))
  {
    AtKeeps(s, i, Finished);
    if !Fenced(s, s.loops[i].epoch) { PublishKeeps(At(s, i, Finished), Error, s.shown, s.loops[i].epoch, Nothing); }
  }

  lemma {:induction false} EventKeeps(s: State, e: Event)
    requires Inv(s) && Enabled(s, e)
    ensures Inv(Next(s, e))
  {
    if e.Loads? || e.Projects? || e.Answers? || e.Fails? { WaitKeeps(s, e); }
    else if e.Verifies? || e.Continues? { VerifyKeeps(s, e); }
    else if e.Computes? { SettleKeeps(s, e.loop, Computed, s.version + 1, s.loops[e.loop].epoch, Current, e.same); }
    else if e.Reobserves? || e.Observes? || e.Witnesses? { EndKeeps(s, e); }
    else if e.Turns? { TurnKeeps(s, e.loop); }
    else if e.Reports? { ReportKeeps(s, e.loop); }
    else { OutsideKeeps(s, e); }
  }

  lemma {:induction false} ReachableInv(events: seq<Event>, s: State)
    requires Reaches(events, s)
    ensures Inv(s)
  {
    if events != [] {
      var last := events[|events| - 1];
      var before :| Reaches(events[..|events| - 1], before) && Enabled(before, last) && s == Next(before, last);
      ReachableInv(events[..|events| - 1], before);
      EventKeeps(before, last);
    }
  }

  // ----- what holds in every reachable state

  /** No call of `refresh` is lost: a turn has begun after the last one, or the
      running loop is still going to begin one; a suspended or disposed controller
      begins none. There is never more than one loop. */
  lemma {:induction false} NoRequestLost(events: seq<Event>, s: State)
    requires Reaches(events, s)
    ensures Answered(s.trail) || (s.requested && |s.loops| == 1) || s.suspended || s.disposed
    ensures |s.loops| <= 1
    ensures s.loops == [] && !s.suspended && !s.disposed ==> Answered(s.trail)
  {
    ReachableInv(events, s);
  }

  /** A call made during a turn is met by the turn that the loop begins next. */
  lemma {:induction false} LateCallIsMet(events: seq<Event>, s: State, i: nat)
    requires Reaches(events, s) && i < |s.loops| && !s.suspended && !s.disposed
    ensures var called := AfterRefresh(s);
            && called.loops == s.loops && !Answered(called.trail)
            && var turned := Turn(At(called, i, Finished), i);
               |turned.loops| == 1 && Answered(turned.trail)
  {
    ReachableInv(events, s);
    MarkKeeps(s.trail, Requested, s.settled);
    var finished := At(AfterRefresh(s), i, Finished);
    var begun := Begin(finished, i);
    MarkKeeps(finished.trail, Begun(s.disposed || !s.visible), s.settled);
    if s.visible && !s.updating {
      PublishKeeps(Note(At(finished.(requested := false), i, Reading(s.epoch)), Begun(false)), Updating, s.shown, s.epoch, Nothing);
    }
  }

  /** A settled state is shown only in the epoch it was computed in, unless it was
      computed without a service and after a wait that no comparison followed; and no
      shown version is below an earlier one. */
  lemma {:induction false} ShownInEpoch(events: seq<Event>, s: State)
    requires Reaches(events, s)
    ensures InEpoch(s.trail) && Rising(s.trail, s.settled) && s.settled <= s.version
  {
    ReachableInv(events, s);
  }

  lemma {:induction false} OneMore(events: seq<Event>, s: State, e: Event)
    requires Reaches(events, s) && Enabled(s, e)
    ensures Reaches(events + [e], Next(s, e))
  {
    var all := events + [e];
    assert all[..|all| - 1] == events && all[|all| - 1] == e;
    assert Reaches(all[..|all| - 1], s);
  }

  /** A state computed without a service, shown under an epoch that has passed. */
  predicate Slipped(m: Mark, since: Wait) { m.Published? && m.kind == Computed && m.since == since && m.epoch < m.now }

  ghost predicate Slips(since: Wait) {
    exists events, s, k: nat :: Reaches(events, s) && k < |s.trail| && Slipped(s.trail[k], since)
  }

  /** Without a service a change can be shown under the old epoch exactly on turns that
      wait between the last comparison and the publication: for the verification to
      return, or for the current note. A definition that has no revision is not
      verified, and the current note is read only when one is pinned. */
  lemma {:induction false} LocalPathSlips(since: Wait)
    ensures Slips(since) <==> since != Nothing
  {
    if since == Nothing {
      forall events, s, k: nat | Reaches(events, s) && k < |s.trail| ensures !Slipped(s.trail[k], since) { ReachableInv(events, s); }
    } else {
      var events, s := Arrives(since);
      LastSlips(events, s, since);
    }
  }

  /** A turn in its last wait, in the first epoch. */
  lemma {:induction false} Arrives(since: Wait) returns (events: seq<Event>, s: State)
    requires since != Nothing
    ensures Reaches(events, s) && s.loops == [if since == Return then Verified(0) else Local(0)]
    ensures s.epoch == 0 && !s.disposed && !s.suspended
  {
    events, s := [], START;
    OneMore(events, s, Call);
    events, s := events + [Call], Next(s, Call);
    assert s.loops == [Reading(0)] && s.epoch == 0;
    var loaded := Loads(0, false, since == Return, false, true, false);
    OneMore(events, s, loaded);
    events, s := events + [loaded], Next(s, loaded);
    if since == Return { events, s := Verified0(events, s); }
  }

  lemma {:induction false} Verified0(before: seq<Event>, was: State) returns (events: seq<Event>, s: State)
    requires Reaches(before, was) && was.loops == [Verifying(0)] && was.epoch == 0 && !was.disposed && !was.suspended
    ensures Reaches(events, s) && s.loops == [Verified(0)] && s.epoch == 0 && !s.disposed && !s.suspended
  {
    assert !Fenced(was, 0);
    OneMore(before, was, Verifies(0));
    events, s := before + [Verifies(0)], Next(was, Verifies(0));
  }

  lemma {:induction false} LastSlips(events: seq<Event>, s: State, since: Wait)
    requires since != Nothing && Reaches(events, s) && s.loops == [if since == Return then Verified(0) else Local(0)]
    requires s.epoch == 0 && !s.disposed && !s.suspended
    ensures Slips(since)
  {
    OneMore(events, s, VaultChanges);
    var events', s' := events + [VaultChanges], Next(s, VaultChanges);
    assert s'.loops == s.loops && s'.epoch == 1 && !s'.suspended;
    var last := if since == Return then Continues(0, false, false, false) else Computes(0, false);
    OneMore(events', s', last);
    LateSettles(s', since, last);
    Slipping(events' + [last], Next(s', last), |Next(s', last).trail| - 1, since);
  }

  lemma {:induction false} Slipping(events: seq<Event>, s: State, k: nat, since: Wait)
    requires Reaches(events, s) && k < |s.trail| && Slipped(s.trail[k], since)
    ensures Slips(since)
  {
  }

  lemma {:induction false} LateSettles(s: State, since: Wait, last: Event)
    requires since != Nothing && s.loops == [if since == Return then Verified(0) else Local(0)] && s.epoch == 1 && !s.suspended
    requires last == if since == Return then Continues(0, false, false, false) else Computes(0, false)
    ensures var t := Next(s, last); |t.trail| == |s.trail| + 1 && Slipped(t.trail[|t.trail| - 1], since)
  {
  }

  // ----- the controller's fields

  class Refresher {
    var requested: bool
    var refreshing: bool
    var disposed: bool
    var suspended: bool
    var visible: bool
    var stale: bool
    var timer: bool
    var epoch: nat
    var version: nat
    var shown: nat
    var settled: nat
    var updating: bool
    var loops: seq<Phase>
    var trail: seq<Mark>

    function Now(): State
      reads this
    {
      State(requested, refreshing, disposed, suspended, visible, stale, timer, epoch, version, shown, settled, updating, loops, trail)
    }

    constructor ()
      ensures Now() == START
    {
      requested, refreshing, disposed, suspended, visible, stale, timer := false, false, false, false, true, true, true;
      epoch, version, shown, settled, updating, loops, trail := 0, 0, 0, 0, false, [], [];
    }

    method PublishState(kind: Kind, v: nat, at: nat, since: Wait)
      modifies `shown, `settled, `updating, `trail
      ensures Now() == Publish(old(Now()), kind, v, at, since)
    {
      if suspended { return; }
      shown, updating := v, kind == Updating;
      if !updating { settled := v; }
      trail := trail + [Published(kind, v, at, epoch, disposed, since)];
    }

    method BeginTurn(i: nat)
      requires i < |loops|
      modifies this
      ensures Now() == Begin(old(Now()), i)
    {
      requested := false;
      if disposed || !visible {
        loops, trail := loops[i := Finished], trail + [Begun(true)];
        return;
      }
      loops, trail := loops[i := Reading(epoch)], trail + [Begun(false)];
      if !updating { PublishState(Updating, shown, epoch, Nothing); }
    }

    method Refresh()
      modifies this
      ensures Now() == AfterRefresh(old(Now()))
    {
      if suspended { return; }
      stale, timer := true, false;
      requested, trail := true, trail + [Requested];
      ghost var asked := Note(old(Now()).(stale := true, timer := false, requested := true), Requested);
      assert Now() == asked;
      if refreshing { return; }
      refreshing, loops := true, loops + [Finished];
      assert Now() == asked.(refreshing := true, loops := asked.loops + [Finished]);
      BeginTurn(|loops| - 1);
    }

    /** The `while` of the loop, and the release of the flag with it. */
    method EndTurn(i: nat)
      requires i < |loops|
      modifies this
      ensures Now() == Turn(old(Now()), i)
    {
      if requested && !disposed {
        BeginTurn(i);
      } else {
        refreshing, loops := false, Without(loops, i);
      }
    }
  }
}
