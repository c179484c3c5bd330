/** Who owns a document pin while saved queries start, cancel and overlap.

    Each event is one uninterrupted stretch of the runner's code: a call from
    outside, or the continuation of one `await`. Any enabled event may come next,
    so a theorem about every reachable state covers every interleaving. The
    preview branch is disabled in the source and left out.
 */
module SharedQuery {
  import opened Platforms

  type Handle = nat

  /** How far `run.closing` has got. */
  datatype Closing = Sent | Refused | Cleared | Erased

  datatype Outcome = Result | Thrown

  /** Where the query of a run is waiting. */
  datatype Phase =
    | Waiting(others: set<nat>)   // for older runs to close
    | Maintaining                 // for the index
    | Opening                     // for the pin
    | Reading(last: bool)         // for the definition, then for the rows
    | Resuming(last: bool, ok: bool) // a read has settled; the query goes on next
    | Retiring(outcome: Outcome)  // in `finally`, for its own close
    | Ended(outcome: Outcome)

  datatype Run = Run(
    active: bool, opening: bool, reading: bool, finalRetry: bool,
    pin: Option<Handle>, closing: Option<Closing>,
    owned: bool,     // in the runner's set `runs`
    erasing: bool,   // a close without a pin will take it out
    refused: bool,   // some close of the pin has failed
    phase: Phase)

  /** What the document service, and the caller, see. */
  datatype Call =
    | Started(run: nat) | Fenced
    | OpenDone(run: nat, handle: Handle)
    | ReadSent(handle: Handle) | ReadDone(handle: Handle)
    | CloseSent(handle: Handle) | CloseDone(handle: Handle) | CloseRefused(handle: Handle)
    | Computed(run: nat) | Answered(run: nat, outcome: Outcome)

  /** Runs in the order in which they were started. */
  datatype State = State(runs: seq<Run>, disposed: bool, calls: seq<Call>)

  const NEW_RUN := Run(true, false, false, false, None, None, true, false, false, Waiting({}))

  const START := State([], false, [])

  datatype Event =
    | Query | Cancel | Dispose
    | OthersClosed(run: nat, current: bool, valid: bool)
    | OthersRefused(run: nat)
    | IndexReady(run: nat, current: bool, valid: bool)
    | PinOpened(run: nat, handle: Handle, current: bool)
    | PinRefused(run: nat)
    | ReadSettled(run: nat, ok: bool)
    | Resumed(run: nat, current: bool, valid: bool)
    | PinClosed(run: nat)
    | PinKept(run: nat)      // its close was rejected
    | RunErased(run: nat)
    | ClosingEnded(run: nat)
    | IdleErased(run: nat)
    | RetireDone(run: nat)
    | RetireFailed(run: nat) // the retire of the query's own `finally`
    | CancelFailed(run: nat) // the retire begun by a cancel

  // ----- the runner's own functions

  /** Run `i` becomes `r` while the runner makes `more` calls. */
  function Change(s: State, i: nat, r: Run, more: seq<Call>): State
    requires i < |s.runs|
  {
    s.(runs := s.runs[i := r], calls := s.calls + more)
  }

  /** `close`: never while an open or a read is in flight, and only once at a time. */
  function Shut(r: Run): (Run, seq<Call>) {
    if r.closing.Some? || r.opening || r.reading then (r, [])
    else if r.pin.None? then (r.(erasing := true), [])
    else (r.(closing := Some(Sent)), [CloseSent(r.pin.value)])
  }

  function Close(s: State, i: nat, r: Run): State
    requires i < |s.runs|
  {
    Change(s, i, Shut(r).0, Shut(r).1)
  }

  /** One turn of the loop in `cancel`. */
  function CancelRun(s: State, i: nat): State
    requires i < |s.runs|
  {
    if s.runs[i].owned then Close(s, i, s.runs[i].(active := false)) else s
  }

  function CancelFrom(s: State, i: nat): (s': State)
    requires i <= |s.runs|
    ensures |s'.runs| == |s.runs|
    decreases |s.runs| - i
  {
    if i == |s.runs| then s else CancelFrom(CancelRun(s, i), i + 1)
  }

  /** `cancel`. */
  function CancelAll(s: State): (s': State)
    ensures |s'.runs| == |s.runs|
  {
    CancelFrom(s.(calls := s.calls + [Fenced]), 0)
  }

  /** One turn of the closing of other inactive runs at the start of a query. */
  function CloseIdle(s: State, i: nat): State
    requires i < |s.runs|
  {
    if s.runs[i].owned && !s.runs[i].active then Close(s, i, s.runs[i]) else s
  }

  function CloseOthers(s: State, i: nat): (s': State)
    requires i <= |s.runs|
    ensures |s'.runs| == |s.runs|
    decreases |s.runs| - i
  {
    if i == |s.runs| then s else CloseOthers(CloseIdle(s, i), i + 1)
  }

  /** The runs whose close the query waits for: all it owns, but those with an
      open or a read in flight, whose `close` returns at once. */
  function Awaited(runs: seq<Run>): set<nat> {
    set i: nat | i < |runs| && runs[i].owned && !runs[i].active && !runs[i].opening && !runs[i].reading
  }

  function Admit(s: State): State {
    State(s.runs + [NEW_RUN], s.disposed, s.calls + [Started(|s.runs|)])
  }

  /** `query`, up to its first wait. */
  function Begin(s: State): State {
    if s.disposed then s
    else
      var id := |s.runs|;
      var closed := CloseOthers(Admit(CancelAll(s)), 0);
      Change(closed, id, closed.runs[id].(phase := Waiting(Awaited(closed.runs))), [])
  }

  predicate Live(s: State, i: nat, current: bool)
    requires i < |s.runs|
  {
    !s.disposed && s.runs[i].active && current
  }

  /** The `finally` of the query, up to its wait. */
  function Finally(s: State, i: nat, r: Run, calls: seq<Call>, outcome: Outcome): State
    requires i < |s.runs|
  {
    var shut := Shut(r.(active := false, phase := Retiring(outcome)));
    Change(s, i, shut.0, calls + shut.1)
  }

  /** `read`: the pin is in use until the service answers. */
  function Read(s: State, i: nat, r: Run, calls: seq<Call>, last: bool): State
    requires i < |s.runs| && r.pin.Some?
  {
    Change(s, i, r.(reading := true, phase := Reading(last)), calls + [ReadSent(r.pin.value)])
  }

  /** A call about the pin of a run, if it has one. */
  function About(r: Run, call: Handle -> Call): seq<Call> {
    if r.pin.Some? then [call(r.pin.value)] else []
  }

  // ----- the events

  ghost predicate Enabled(s: State, e: Event) {
    match e
    case Query => true
    case Cancel => true
    case Dispose => true
    case OthersClosed(i, _, _) =>
      i < |s.runs| && s.runs[i].phase.Waiting? &&
      forall o :: o in s.runs[i].phase.others && o < |s.runs| ==> !s.runs[o].owned
    case OthersRefused(i) =>
      i < |s.runs| && s.runs[i].phase.Waiting? &&
      exists o :: o in s.runs[i].phase.others && o < |s.runs| && s.runs[o].refused
    case IndexReady(i, _, _) => i < |s.runs| && s.runs[i].phase.Maintaining?
    case PinOpened(i, h, _) => i < |s.runs| && s.runs[i].phase.Opening? && Track(s.calls, h) == Unknown
    case PinRefused(i) => i < |s.runs| && s.runs[i].phase.Opening?
    case ReadSettled(i, _) => i < |s.runs| && s.runs[i].phase.Reading?
    case Resumed(i, _, _) => i < |s.runs| && s.runs[i].phase.Resuming?
    case PinClosed(i) => i < |s.runs| && s.runs[i].closing == Some(Sent)
    case PinKept(i) => i < |s.runs| && s.runs[i].closing == Some(Sent)
    case RunErased(i) => i < |s.runs| && s.runs[i].closing == Some(Cleared)
    case ClosingEnded(i) => i < |s.runs| && s.runs[i].closing in {Some(Erased), Some(Refused)}
    case IdleErased(i) => i < |s.runs| && s.runs[i].erasing
    case RetireDone(i) =>
      i < |s.runs| && s.runs[i].phase.Retiring? &&
      s.runs[i].pin.None? && s.runs[i].closing.None? && !s.runs[i].erasing
    case RetireFailed(i) => i < |s.runs| && s.runs[i].phase.Retiring? && s.runs[i].refused
    case CancelFailed(i) => i < |s.runs| && s.disposed && s.runs[i].refused && !s.runs[i].finalRetry
  }

  ghost function Next(s: State, e: Event): State
    requires Enabled(s, e)
  {
    match e
    case Query => Begin(s)
    case Cancel => CancelAll(s)
    case Dispose => CancelAll(s.(disposed := true))
    case OthersClosed(i, current, valid) =>
      var r := s.runs[i];
      if Live(s, i, current) && valid then Change(s, i, r.(phase := Maintaining), [])
      else Finally(s, i, r, [], Thrown)
    case OthersRefused(i) => Finally(s, i, s.runs[i], [], Thrown)
    case IndexReady(i, current, valid) =>
      var r := s.runs[i];
      if Live(s, i, current) && valid then Change(s, i, r.(opening := true, phase := Opening), [])
      else Finally(s, i, r, [], Thrown)
    case PinOpened(i, h, current) =>
      var r := s.runs[i].(pin := Some(h), opening := false);
      if Live(s, i, current) then Read(s, i, r, [OpenDone(i, h)], false)
      else Finally(s, i, r, [OpenDone(i, h)], Thrown)
    case PinRefused(i) => Finally(s, i, s.runs[i].(opening := false), [], Thrown)
    case ReadSettled(i, ok) =>
      var r := s.runs[i];
      Change(s, i, r.(reading := false, phase := Resuming(r.phase.last, ok)), About(r, (h: Handle) => ReadDone(h)))
    case Resumed(i, current, valid) =>
      var r := s.runs[i];
      if !r.phase.ok || !Live(s, i, current) || !valid || r.pin.None? then Finally(s, i, r, [], Thrown)
      else if !r.phase.last then Read(s, i, r, [], true)
      else Finally(s, i, r, [Computed(i)], Result)
    case PinClosed(i) =>
      var r := s.runs[i];
      Change(s, i, r.(pin := None, closing := Some(Cleared)), About(r, (h: Handle) => CloseDone(h)))
    case PinKept(i) =>
      var r := s.runs[i];
      Change(s, i, r.(closing := Some(Refused), refused := true), About(r, (h: Handle) => CloseRefused(h)))
    case RunErased(i) =>
      var r := s.runs[i];
      Change(s, i, r.(closing := Some(Erased), owned := r.owned && r.active), [])
    case ClosingEnded(i) => Change(s, i, s.runs[i].(closing := None), [])
    case IdleErased(i) =>
      var r := s.runs[i];
      Change(s, i, r.(erasing := false, owned := r.owned && (r.active || r.opening)), [])
    case RetireDone(i) =>
      var outcome := s.runs[i].phase.outcome;
      Change(s, i, s.runs[i].(phase := Ended(outcome)), [Answered(i, outcome)])
    case RetireFailed(i) =>
      if s.disposed && !s.runs[i].finalRetry then Close(s, i, s.runs[i].(finalRetry := true))
      else Change(s, i, s.runs[i].(phase := Ended(Thrown)), [Answered(i, Thrown)])
    case CancelFailed(i) => Close(s, i, s.runs[i].(finalRetry := true))
  }

  ghost predicate Reaches(events: seq<Event>, s: State) {
    if events == [] then s == START
    else
      var last := events[|events| - 1];
      exists before :: Reaches(events[..|events| - 1], before) && Enabled(before, last) && s == Next(before, last)
  }

  // ----- the protocol of one pin, read off the calls

  datatype Custody = Unknown | Idle | Busy | Leaving | Stuck | Gone | Misused

  /** A pin is read only between calls and before any close; it is closed while
      idle, or again after a refused close; once closed it is never used. */
  function Use(c: Custody, call: Call, h: Handle): Custody {
    match call
    case OpenDone(_, g) => if g != h then c else if c.Unknown? then Idle else Misused
    case ReadSent(g) => if g != h then c else if c.Idle? then Busy else Misused
    case ReadDone(g) => if g != h then c else if c.Busy? then Idle else Misused
    case CloseSent(g) => if g != h then c else if c.Idle? || c.Stuck? then Leaving else Misused
    case CloseDone(g) => if g != h then c else if c.Leaving? then Gone else Misused
    case CloseRefused(g) => if g != h then c else if c.Leaving? then Stuck else Misused
    case _ => c
  }

  function Track(calls: seq<Call>, h: Handle): Custody {
    if calls == [] then Unknown else Use(Track(calls[..|calls| - 1], h), calls[|calls| - 1], h)
  }

  /** The last start or cancellation, if it was a start. */
  function Newest(calls: seq<Call>): Option<nat> {
    if calls == [] then None
    else
      match calls[|calls| - 1]
      case Started(i) => Some(i)
      case Fenced => None
      case _ => Newest(calls[..|calls| - 1])
  }

  // ----- the invariant

  /** What the calls say about the pin of a run. */
  function Holding(r: Run): Custody
    requires r.pin.Some?
  {
    if r.reading then Busy
    else if r.closing == Some(Sent) then Leaving
    else if r.refused then Stuck
    else Idle
  }

  predicate Sound(r: Run) {
    && (r.opening <==> r.phase.Opening?)
    && (r.reading <==> r.phase.Reading?)
    && (r.active ==> r.owned && r.closing.None? && !r.erasing && !r.refused && !r.phase.Retiring? && !r.phase.Ended?)
    && (r.pin.Some? ==> r.owned && !r.opening && !r.erasing && !r.phase.Waiting? && !r.phase.Maintaining?)
    && (r.opening ==> r.owned && r.closing.None? && !r.erasing && !r.refused)
    && (r.reading ==> r.pin.Some? && r.closing.None? && !r.refused)
    && (r.phase.Resuming? && r.active ==> r.pin.Some?)
    && (r.closing.Some? ==> (r.pin.Some? <==> r.closing.value.Sent? || r.closing.value.Refused?))
    && (r.erasing ==> r.closing.None?)
    && (r.closing == Some(Refused) ==> r.refused)
    && (r.closing == Some(Erased) ==> !r.owned)
    && (r.refused ==> r.pin.Some? || r.closing.Some? || !r.owned)
    && ((r.phase.Retiring? || r.phase.Ended?) && r.pin.None? && r.closing.None? && !r.erasing ==> !r.owned)
    && ((r.phase.Retiring? || r.phase.Ended?) && r.pin.Some? && r.closing.None? ==> r.refused)
  }

  /** Every run is sound; no two hold one pin; and the calls made for each pin
      fit its holder. A pin in use is held, so none is ever lost. */
  ghost predicate Core(s: State) {
    && (forall i :: 0 <= i < |s.runs| ==> Sound(s.runs[i]))
    && (forall i, j :: 0 <= i < j < |s.runs| && s.runs[i].pin.Some? ==> s.runs[i].pin != s.runs[j].pin)
    && (forall h: Handle :: Kept(s, h))
  }

  ghost predicate Kept(s: State, h: Handle) {
    var c := Track(s.calls, h);
    if exists i :: Holds(s, i, h) then forall i :: Holds(s, i, h) ==> c == Holding(s.runs[i])
    else c.Unknown? || c.Gone?
  }

  predicate Holds(s: State, i: int, h: Handle) {
    0 <= i < |s.runs| && s.runs[i].pin == Some(h)
  }

  /** Only the newest run can be active. */
  ghost predicate Inv(s: State) {
    && Core(s)
    && (forall i :: 0 <= i < |s.runs| && s.runs[i].active ==> Newest(s.calls) == Some(i) && !s.disposed)
  }

  // ----- one run changes

  function UseAll(c: Custody, calls: seq<Call>, h: Handle): Custody
    decreases calls
  {
    if calls == [] then c else UseAll(Use(c, calls[0], h), calls[1..], h)
  }

  lemma {:induction false} TrackAppend(calls: seq<Call>, more: seq<Call>, h: Handle)
    ensures Track(calls + more, h) == UseAll(Track(calls, h), more, h)
    decreases |more|
  {
    if more == [] { assert calls + more == calls; }
    else {
      var longer := calls + [more[0]];
      assert longer[..|longer| - 1] == calls;
      TrackAppend(longer, more[1..], h);
      assert calls + more == longer + more[1..];
    }
  }

  function HandleOf(call: Call): Option<Handle> {
    match call
    case OpenDone(_, h) => Some(h)
    case ReadSent(h) => Some(h)
    case ReadDone(h) => Some(h)
    case CloseSent(h) => Some(h)
    case CloseDone(h) => Some(h)
    case CloseRefused(h) => Some(h)
    case _ => None
  }

  lemma {:induction false} OthersUnused(c: Custody, calls: seq<Call>, h: Handle)
    requires forall k :: 0 <= k < |calls| ==> HandleOf(calls[k]) != Some(h)
    ensures UseAll(c, calls, h) == c
  {
    if calls != [] { OthersUnused(c, calls[1..], h); }
  }

  lemma {:induction false} NewestAppend(calls: seq<Call>, more: seq<Call>)
    requires forall k :: 0 <= k < |more| ==> !more[k].Started? && !more[k].Fenced?
    ensures Newest(calls + more) == Newest(calls)
    decreases |more|
  {
    if more == [] { assert calls + more == calls; }
    else {
      var longer := calls + more[..|more| - 1];
      assert calls + more == longer + [more[|more| - 1]];
      NewestAppend(calls, more[..|more| - 1]);
    }
  }

  /** The calls concern the pin that the run holds, or is given, and leave it as
      the run then says; without calls for it, nothing about it changes. */
  predicate Fits(s: State, i: nat, r: Run, more: seq<Call>)
    requires i < |s.runs|
  {
    && Sound(r)
    && (forall k :: 0 <= k < |more| ==> !more[k].Started? && !more[k].Fenced?)
    && var was := s.runs[i].pin;
       if was.None? && r.pin.None? then forall k :: 0 <= k < |more| ==> HandleOf(more[k]).None?
       else
         var h := if was.Some? then was.value else r.pin.value;
         && (forall k :: 0 <= k < |more| ==> HandleOf(more[k]) in {None, Some(h)})
         && (was.None? ==> Track(s.calls, h).Unknown?)
         && var c := UseAll(Track(s.calls, h), more, h);
            if r.pin.Some? then r.pin.value == h && c == Holding(r) else c.Gone?
  }

  lemma {:induction false} ChangeKeepsPin(s: State, i: nat, r: Run, more: seq<Call>, h: Handle)
    requires i < |s.runs| && Core(s) && Fits(s, i, r, more)
    ensures Kept(Change(s, i, r, more), h)
  {
    var s' := Change(s, i, r, more);
    TrackAppend(s.calls, more, h);
    assert Kept(s, h);
    if s.runs[i].pin == Some(h) {
      assert Holds(s, i, h);
      assert forall j :: Holds(s', j, h) ==> j == i;
      assert Holds(s', i, h) <==> r.pin == Some(h);
    } else if r.pin == Some(h) {
      assert Holds(s', i, h);
      assert forall j :: Holds(s', j, h) && j != i ==> Holds(s, j, h);
      assert forall j :: Holds(s, j, h) ==> Sound(s.runs[j]) && Track(s.calls, h) == Holding(s.runs[j]);
    } else {
      OthersUnused(Track(s.calls, h), more, h);
      assert forall j :: Holds(s', j, h) <==> Holds(s, j, h);
      assert forall j :: Holds(s, j, h) ==> s'.runs[j] == s.runs[j];
    }
  }

  lemma {:induction false} ChangeKeeps(s: State, i: nat, r: Run, more: seq<Call>)
    requires i < |s.runs| && Core(s) && Fits(s, i, r, more)
    ensures Core(Change(s, i, r, more))
    ensures Newest(Change(s, i, r, more).calls) == Newest(s.calls)
  {
    var s' := Change(s, i, r, more);
    NewestAppend(s.calls, more);
    forall h: Handle ensures Kept(s', h) { ChangeKeepsPin(s, i, r, more, h); }
    forall j, k | 0 <= j < k < |s'.runs| && s'.runs[j].pin.Some?
      ensures s'.runs[j].pin != s'.runs[k].pin
    {
      if s'.runs[j].pin == s'.runs[k].pin {
        var h := s'.runs[j].pin.value;
        assert Kept(s, h);
        if j == i { assert Holds(s, k, h); } else { assert Holds(s, j, h); }
      }
    }
  }

  lemma {:induction false} ChangeInv(s: State, i: nat, r: Run, more: seq<Call>)
    requires i < |s.runs| && Inv(s) && Fits(s, i, r, more)
    requires r.active ==> s.runs[i].active
    ensures Inv(Change(s, i, r, more))
  {
    ChangeKeeps(s, i, r, more);
  }

  // ----- loops over the runs

  /** Closing an inactive run is within its rights. */
  lemma {:induction false} ShutFits(s: State, i: nat, r: Run)
    requires i < |s.runs| && Core(s) && Sound(r) && !r.active
    requires r.pin == s.runs[i].pin && (r.pin.Some? ==> Holding(r) == Holding(s.runs[i]))
    ensures Fits(s, i, Shut(r).0, Shut(r).1)
  {
    if r.pin.Some? { assert Kept(s, r.pin.value) && Holds(s, i, r.pin.value); }
  }

  lemma {:induction false} CancelKeeps(s: State, i: nat)
    requires i <= |s.runs| && Core(s) && forall j :: 0 <= j < i ==> !s.runs[j].active
    ensures Core(CancelFrom(s, i)) && Newest(CancelFrom(s, i).calls) == Newest(s.calls)
    ensures CancelFrom(s, i).disposed == s.disposed
    ensures forall j :: 0 <= j < |s.runs| ==> !CancelFrom(s, i).runs[j].active
    decreases |s.runs| - i
  {
    if i < |s.runs| {
      var r := s.runs[i].(active := false);
      if s.runs[i].owned {
        ShutFits(s, i, r);
        ChangeKeeps(s, i, Shut(r).0, Shut(r).1);
      }
      CancelKeeps(CancelRun(s, i), i + 1);
    }
  }

  lemma {:induction false} CloseOthersKeeps(s: State, i: nat)
    requires i <= |s.runs| && Core(s)
    ensures Core(CloseOthers(s, i)) && Newest(CloseOthers(s, i).calls) == Newest(s.calls)
    ensures CloseOthers(s, i).disposed == s.disposed
    ensures forall j :: 0 <= j < |s.runs| ==> CloseOthers(s, i).runs[j].active == s.runs[j].active
    ensures forall j :: 0 <= j < |s.runs| && s.runs[j].active ==> CloseOthers(s, i).runs[j] == s.runs[j]
    decreases |s.runs| - i
  {
    if i < |s.runs| {
      var r := s.runs[i];
      if r.owned && !r.active {
        ShutFits(s, i, r);
        ChangeKeeps(s, i, Shut(r).0, Shut(r).1);
      }
      CloseOthersKeeps(CloseIdle(s, i), i + 1);
    }
  }

  lemma {:induction false} SayKeeps(s: State, call: Call, s': State)
    requires Core(s) && HandleOf(call).None?
    requires s'.calls == s.calls + [call]
    requires s'.runs == s.runs || s'.runs == s.runs + [NEW_RUN]
    ensures Core(s')
  {
    forall h: Handle ensures Kept(s', h) {
      TrackAppend(s.calls, [call], h);
      assert Kept(s, h);
      assert forall i :: Holds(s', i, h) <==> Holds(s, i, h);
    }
  }

  lemma {:induction false} CancelAllKeeps(s: State, disposed: bool)
    requires Core(s)
    ensures var c := CancelAll(s.(disposed := disposed));
            && Core(c) && Newest(c.calls).None? && c.disposed == disposed
            && forall j :: 0 <= j < |s.runs| ==> !c.runs[j].active
  {
    var fenced := State(s.runs, disposed, s.calls + [Fenced]);
    SayKeeps(s, Fenced, fenced);
    CancelKeeps(fenced, 0);
  }

  lemma {:induction false} BeginKeeps(s: State)
    requires Inv(s)
    ensures Inv(Begin(s))
  {
    if !s.disposed {
      var id := |s.runs|;
      var cancelled := CancelAll(s);
      CancelAllKeeps(s, false);
      var admitted := Admit(cancelled);
      SayKeeps(cancelled, Started(id), admitted);
      CloseOthersKeeps(admitted, 0);
      var closed := CloseOthers(admitted, 0);
      assert Newest(closed.calls) == Some(id) && closed.runs[id] == NEW_RUN;
      assert Inv(closed);
      ChangeInv(closed, id, closed.runs[id].(phase := Waiting(Awaited(closed.runs))), []);
    }
  }

  // ----- every event keeps the invariant

  lemma {:induction false} UseAppend(c: Custody, calls: seq<Call>, more: seq<Call>, h: Handle)
    ensures UseAll(c, calls + more, h) == UseAll(UseAll(c, calls, h), more, h)
    decreases calls
  {
    if calls == [] { assert calls + more == more; }
    else {
      assert (calls + more)[1..] == calls[1..] + more;
      UseAppend(Use(c, calls[0], h), calls[1..], more, h);
    }
  }

  lemma {:induction false} UseOne(c: Custody, call: Call, h: Handle)
    ensures UseAll(c, [call], h) == Use(c, call, h)
  {
    assert [call][1..] == [];
  }

  /** A run that could go on resuming can go into its `finally` instead. */
  lemma {:induction false} FinallyKeeps(s: State, i: nat, r: Run, calls: seq<Call>, outcome: Outcome)
    requires i < |s.runs| && Inv(s)
    requires Fits(s, i, r.(active := false, phase := Resuming(false, false)), calls)
    ensures Inv(Finally(s, i, r, calls, outcome))
  {
    var shut := Shut(r.(active := false, phase := Retiring(outcome)));
    if r.pin.Some? {
      var h := r.pin.value;
      UseAppend(Track(s.calls, h), calls, shut.1, h);
      UseOne(UseAll(Track(s.calls, h), calls, h), CloseSent(h), h);
    }
    assert calls + [] == calls;
    ChangeInv(s, i, shut.0, calls + shut.1);
  }

  lemma {:induction false} CustodyHeld(s: State, i: nat)
    requires i < |s.runs| && Core(s) && s.runs[i].pin.Some?
    ensures Track(s.calls, s.runs[i].pin.value) == Holding(s.runs[i])
  {
    assert Kept(s, s.runs[i].pin.value) && Holds(s, i, s.runs[i].pin.value);
  }

  lemma {:induction false} QueryGoesOn(s: State, e: Event)
    requires Inv(s) && Enabled(s, e) && (e.OthersClosed? || e.OthersRefused? || e.IndexReady? || e.PinRefused?)
    ensures Inv(Next(s, e))
  {
    var i := e.run;
    var r := s.runs[i].(opening := false);
    if s.runs[i].pin.Some? { CustodyHeld(s, i); }
    FinallyKeeps(s, i, r, [], Thrown);
    if s.runs[i].active && !e.PinRefused? {
      ChangeInv(s, i, r.(phase := Maintaining), []);
      ChangeInv(s, i, r.(opening := true, phase := Opening), []);
    }
  }

  lemma {:induction false} PinArrives(s: State, e: Event)
    requires Inv(s) && Enabled(s, e) && e.PinOpened?
    ensures Inv(Next(s, e))
  {
    var i := e.run;
    var r := s.runs[i].(pin := Some(e.handle), opening := false);
    FinallyKeeps(s, i, r, [OpenDone(i, e.handle)], Thrown);
    if Live(s, i, e.current) {
      var open, read := OpenDone(i, e.handle), ReadSent(e.handle);
      UseAppend(Unknown, [open], [read], e.handle);
      UseOne(Unknown, open, e.handle);
      UseOne(Idle, read, e.handle);
      ChangeInv(s, i, r.(reading := true, phase := Reading(false)), [open] + [read]);
    }
  }

  lemma {:induction false} ReadEnds(s: State, e: Event)
    requires Inv(s) && Enabled(s, e) && e.ReadSettled?
    ensures Inv(Next(s, e))
  {
    var i, r := e.run, s.runs[e.run];
    CustodyHeld(s, i);
    ChangeInv(s, i, r.(reading := false, phase := Resuming(r.phase.last, e.ok)), [ReadDone(r.pin.value)]);
  }

  lemma {:induction false} QueryResumes(s: State, e: Event)
    requires Inv(s) && Enabled(s, e) && e.Resumed?
    ensures Inv(Next(s, e))
  {
    var i, r := e.run, s.runs[e.run];
    if r.pin.Some? {
      CustodyHeld(s, i);
      UseOne(Holding(r), Computed(i), r.pin.value);
    }
    FinallyKeeps(s, i, r, [], Thrown);
    if r.active {
      FinallyKeeps(s, i, r, [Computed(i)], Result);
      var read := ReadSent(r.pin.value);
      UseOne(Idle, read, r.pin.value);
      assert [] + [read] == [read];
      ChangeInv(s, i, r.(reading := true, phase := Reading(true)), [read]);
    }
  }

  lemma {:induction false} ClosingGoesOn(s: State, e: Event)
    requires Inv(s) && Enabled(s, e)
    requires e.PinClosed? || e.PinKept? || e.RunErased? || e.ClosingEnded? || e.IdleErased?
    ensures Inv(Next(s, e))
  {
    var i := e.run;
    var r := s.runs[i];
    if r.pin.Some? { CustodyHeld(s, i); }
    match e
    case PinClosed(_) => ChangeInv(s, i, r.(pin := None, closing := Some(Cleared)), [CloseDone(r.pin.value)]);
    case PinKept(_) => ChangeInv(s, i, r.(closing := Some(Refused), refused := true), [CloseRefused(r.pin.value)]);
    case RunErased(_) => ChangeInv(s, i, r.(closing := Some(Erased), owned := r.owned && r.active), []);
    case ClosingEnded(_) => ChangeInv(s, i, r.(closing := None), []);
    case IdleErased(_) => ChangeInv(s, i, r.(erasing := false, owned := r.owned && (r.active || r.opening)), []);
  }

  lemma {:induction false} RetiringGoesOn(s: State, e: Event)
    requires Inv(s) && Enabled(s, e) && (e.RetireDone? || e.RetireFailed? || e.CancelFailed?)
    ensures Inv(Next(s, e))
  {
    var i := e.run;
    var r := s.runs[i];
    if r.pin.Some? { CustodyHeld(s, i); }
    if e.RetireDone? {
      ChangeInv(s, i, r.(phase := Ended(r.phase.outcome)), [Answered(i, r.phase.outcome)]);
    } else {
      if e.RetireFailed? { ChangeInv(s, i, r.(phase := Ended(Thrown)), [Answered(i, Thrown)]); }
      var again := r.(finalRetry := true);
      ShutFits(s, i, again);
      ChangeInv(s, i, Shut(again).0, Shut(again).1);
    }
  }

  lemma {:induction false} EventKeeps(s: State, e: Event)
    requires Inv(s) && Enabled(s, e)
    ensures Inv(Next(s, e))
  {
    if e.Query? { BeginKeeps(s); }
    else if e.Cancel? { CancelAllKeeps(s, s.disposed); }
    else if e.Dispose? { CancelAllKeeps(s, true); }
    else if e.PinOpened? { PinArrives(s, e); }
    else if e.ReadSettled? { ReadEnds(s, e); }
    else if e.Resumed? { QueryResumes(s, e); }
    else if e.RetireDone? || e.RetireFailed? || e.CancelFailed? { RetiringGoesOn(s, e); }
    else if e.OthersClosed? || e.OthersRefused? || e.IndexReady? || e.PinRefused? { QueryGoesOn(s, e); }
    else { ClosingGoesOn(s, e); }
  }

  lemma {:induction false} ReachableInv(events: seq<Event>, s: State)
    requires Reaches(events, s)
    ensures Inv(s)
  {
    if events == [] {
      forall h: Handle ensures Kept(START, h) {}
    } else {
      var last := events[|events| - 1];
      var before :| Reaches(events[..|events| - 1], before) && Enabled(before, last) && s == Next(before, last);
      ReachableInv(events[..|events| - 1], before);
      EventKeeps(before, last);
    }
  }

  // ----- what holds in every reachable state

  /** No pin is read after its close has begun, closed while in use, or closed
      twice at once; and a pin not yet closed is held by one run the runner owns. */
  lemma {:induction false} PinsAreRespected(events: seq<Event>, s: State, h: Handle)
    requires Reaches(events, s)
    ensures Track(s.calls, h) != Misused
    ensures !Track(s.calls, h).Unknown? && !Track(s.calls, h).Gone? ==>
              exists i :: Holds(s, i, h) && s.runs[i].owned && forall j :: Holds(s, j, h) ==> j == i
    ensures Track(s.calls, h).Unknown? || Track(s.calls, h).Gone? ==> forall i :: !Holds(s, i, h)
  {
    ReachableInv(events, s);
    assert Kept(s, h);
    if i :| Holds(s, i, h) {
      assert Track(s.calls, h) == Holding(s.runs[i]);
    }
  }

  /** At most one run is active, and it is the one started last. */
  lemma {:induction false} OneActiveRun(events: seq<Event>, s: State, i: nat)
    requires Reaches(events, s) && i < |s.runs| && s.runs[i].active
    ensures Newest(s.calls) == Some(i) && !s.disposed && s.runs[i].owned
    ensures forall j :: 0 <= j < |s.runs| && s.runs[j].active ==> j == i
  {
    ReachableInv(events, s);
  }

  /** Once every query has ended and no close is under way, the only pins left
      open are those whose last close the service refused. */
  lemma {:induction false} QuietLeavesOnlyRefusedPins(events: seq<Event>, s: State, h: Handle)
    requires Reaches(events, s)
    requires forall i :: 0 <= i < |s.runs| ==> s.runs[i].phase.Ended? && s.runs[i].closing.None? && !s.runs[i].erasing
    ensures Track(s.calls, h) in {Unknown, Gone, Stuck}
    ensures forall i :: 0 <= i < |s.runs| ==> (s.runs[i].owned <==> s.runs[i].pin.Some?)
  {
    ReachableInv(events, s);
    PinsAreRespected(events, s, h);
    assert Kept(s, h);
    if i :| Holds(s, i, h) { assert Track(s.calls, h) == Holding(s.runs[i]); }
  }

  /** A new query first sees to the close of every run that is not in use. */
  lemma {:induction false} CloseOthersCloses(s: State, i: nat, j: nat)
    requires i <= |s.runs| && j < |s.runs|
    requires j < i ==> Leaves(s.runs[j])
    ensures Leaves(CloseOthers(s, i).runs[j])
    decreases |s.runs| - i
  {
    if i < |s.runs| { CloseOthersCloses(CloseIdle(s, i), i + 1, j); }
  }

  predicate Leaves(r: Run) {
    r.owned && !r.active ==> r.opening || r.reading || r.closing.Some? || r.erasing
  }

  lemma {:induction false} QueryClosesOthers(s: State)
    requires Inv(s) && !s.disposed
    ensures |Begin(s).runs| == |s.runs| + 1
    ensures forall j :: 0 <= j < |s.runs| ==>
              && !Begin(s).runs[j].active && Leaves(Begin(s).runs[j])
              && (j in Begin(s).runs[|s.runs|].phase.others <==>
                  Begin(s).runs[j].owned && !Begin(s).runs[j].opening && !Begin(s).runs[j].reading)
  {
    BeginKeeps(s);
    CancelAllKeeps(s, false);
    var admitted := Admit(CancelAll(s));
    SayKeeps(CancelAll(s), Started(|s.runs|), admitted);
    CloseOthersKeeps(admitted, 0);
    forall j | 0 <= j < |s.runs| ensures Leaves(CloseOthers(admitted, 0).runs[j]) {
      CloseOthersCloses(admitted, 0, j);
    }
  }

  // ----- results

  /** A result is computed only by the newest run, with no cancel since its start,
      and given out only after that. */
  ghost predicate Timely(calls: seq<Call>) {
    && (forall k :: 0 <= k < |calls| && calls[k].Computed? ==> Newest(calls[..k]) == Some(calls[k].run))
    && (forall k :: 0 <= k < |calls| && calls[k].Answered? && calls[k].outcome.Result? ==>
          Computed(calls[k].run) in calls[..k])
  }

  ghost predicate Earned(s: State) {
    forall i :: 0 <= i < |s.runs| && s.runs[i].phase in {Retiring(Result), Ended(Result)} ==> Computed(i) in s.calls
  }

  predicate Plain(call: Call) { !call.Computed? && !call.Answered? }

  lemma {:induction false} TimelyAppend(calls: seq<Call>, more: seq<Call>)
    requires Timely(calls) && forall k :: 0 <= k < |more| ==> Plain(more[k])
    ensures Timely(calls + more)
  {
    var all := calls + more;
    assert forall k :: 0 <= k < |calls| ==> all[..k] == calls[..k];
  }

  lemma {:induction false} TimelyOne(calls: seq<Call>, call: Call)
    requires Timely(calls)
    requires call.Computed? ==> Newest(calls) == Some(call.run)
    requires call.Answered? && call.outcome.Result? ==> Computed(call.run) in calls
    ensures Timely(calls + [call])
  {
    var all := calls + [call];
    assert all[..|calls|] == calls;
    assert forall k :: 0 <= k < |calls| ==> all[..k] == calls[..k];
  }

  /** A run changes without entering or leaving its `finally` with a result. */
  predicate Modest(s: State, t: State) {
    && s.calls <= t.calls && (forall k :: |s.calls| <= k < |t.calls| ==> Plain(t.calls[k]))
    && |s.runs| <= |t.runs|
    && (forall i :: 0 <= i < |s.runs| ==> t.runs[i].phase == s.runs[i].phase)
    && (forall i :: |s.runs| <= i < |t.runs| ==> t.runs[i].phase.Waiting?)
  }

  lemma {:induction false} CancelIsModest(s: State, i: nat)
    requires i <= |s.runs|
    ensures Modest(s, CancelFrom(s, i))
    decreases |s.runs| - i
  {
    if i < |s.runs| { CancelIsModest(CancelRun(s, i), i + 1); }
  }

  lemma {:induction false} CloseOthersIsModest(s: State, i: nat)
    requires i <= |s.runs|
    ensures Modest(s, CloseOthers(s, i))
    decreases |s.runs| - i
  {
    if i < |s.runs| { CloseOthersIsModest(CloseIdle(s, i), i + 1); }
  }

  lemma {:induction false} ModestKeeps(s: State, t: State)
    requires Timely(s.calls) && Earned(s) && Modest(s, t)
    ensures Timely(t.calls) && Earned(t)
  {
    assert t.calls == s.calls + t.calls[|s.calls|..];
    TimelyAppend(s.calls, t.calls[|s.calls|..]);
  }

  lemma {:induction false} BeginTimely(s: State)
    requires Timely(s.calls) && Earned(s)
    ensures Timely(Begin(s).calls) && Earned(Begin(s))
  {
    if !s.disposed {
      var fenced := s.(calls := s.calls + [Fenced]);
      CancelIsModest(fenced, 0);
      ModestKeeps(s, CancelAll(s));
      var admitted := Admit(CancelAll(s));
      CloseOthersIsModest(admitted, 0);
      var closed := CloseOthers(admitted, 0);
      ModestKeeps(CancelAll(s), closed);
      assert closed.calls + [] == closed.calls;
    }
  }

  lemma {:induction false} CancelTimely(s: State, disposed: bool)
    requires Timely(s.calls) && Earned(s)
    ensures var t := CancelAll(s.(disposed := disposed)); Timely(t.calls) && Earned(t)
  {
    CancelIsModest(State(s.runs, disposed, s.calls + [Fenced]), 0);
    ModestKeeps(s, CancelAll(s.(disposed := disposed)));
  }

  lemma {:induction false} ChangeTimely(s: State, i: nat, r: Run, more: seq<Call>)
    requires i < |s.runs| && Timely(s.calls) && Earned(s)
    requires forall k :: 0 <= k < |more| ==> Plain(more[k])
    requires r.phase in {Retiring(Result), Ended(Result)} ==> s.runs[i].phase == r.phase
    ensures Timely(Change(s, i, r, more).calls) && Earned(Change(s, i, r, more))
  {
    TimelyAppend(s.calls, more);
  }

  /** Most events neither compute nor answer. */
  lemma {:induction false} PlainEvent(s: State, e: Event)
    requires Inv(s) && Timely(s.calls) && Earned(s) && Enabled(s, e)
    requires !e.Query? && !e.Cancel? && !e.Dispose? && !e.Resumed? && !e.RetireDone?
    requires e.RetireFailed? ==> s.disposed && !s.runs[e.run].finalRetry
    ensures Timely(Next(s, e).calls) && Earned(Next(s, e))
  {
    var i, t := e.run, Next(s, e);
    var more := t.calls[|s.calls|..];
    assert t.calls == s.calls + more;
    if e.ReadSettled? || e.PinClosed? || e.PinKept? {
      assert |more| <= 1;
    } else if e.PinOpened? {
      assert |more| <= 2 && more[0].OpenDone?;
    } else {
      assert |more| <= 1;
    }
    ChangeTimely(s, i, t.runs[i], more);
  }

  lemma {:induction false} ResumedTimely(s: State, e: Event)
    requires Inv(s) && Timely(s.calls) && Earned(s) && Enabled(s, e) && e.Resumed?
    ensures Timely(Next(s, e).calls) && Earned(Next(s, e))
  {
    var i, t, r := e.run, Next(s, e), s.runs[e.run];
    if !r.phase.ok || !Live(s, i, e.current) || !e.valid || r.pin.None? {
      var shut := Shut(r.(active := false, phase := Retiring(Thrown)));
      assert [] + shut.1 == shut.1;
      ChangeTimely(s, i, shut.0, shut.1);
    } else if !r.phase.last {
      var read := ReadSent(r.pin.value);
      assert [] + [read] == [read];
      ChangeTimely(s, i, r.(reading := true, phase := Reading(true)), [read]);
    } else {
      var shut := Shut(r.(active := false, phase := Retiring(Result)));
      var computed := s.calls + [Computed(i)];
      TimelyOne(s.calls, Computed(i));
      TimelyAppend(computed, shut.1);
      assert t.calls == computed + shut.1;
    }
  }

  lemma {:induction false} AnsweredTimely(s: State, e: Event)
    requires Inv(s) && Timely(s.calls) && Earned(s) && Enabled(s, e) && (e.RetireDone? || e.RetireFailed?)
    requires e.RetireFailed? ==> !(s.disposed && !s.runs[e.run].finalRetry)
    ensures Timely(Next(s, e).calls) && Earned(Next(s, e))
  {
    TimelyOne(s.calls, Answered(e.run, Next(s, e).runs[e.run].phase.outcome));
  }

  lemma {:induction false} EventTimely(s: State, e: Event)
    requires Inv(s) && Timely(s.calls) && Earned(s) && Enabled(s, e)
    ensures Timely(Next(s, e).calls) && Earned(Next(s, e))
  {
    if e.Query? { BeginTimely(s); }
    else if e.Cancel? { CancelTimely(s, s.disposed); }
    else if e.Dispose? { CancelTimely(s, true); }
    else if e.Resumed? { ResumedTimely(s, e); }
    else if e.RetireDone? || (e.RetireFailed? && !(s.disposed && !s.runs[e.run].finalRetry)) { AnsweredTimely(s, e); }
    else { PlainEvent(s, e); }
  }

  /** A query that is superseded or cancelled before its last check yields nothing. */
  lemma {:induction false} ResultsAreTimely(events: seq<Event>, s: State)
    requires Reaches(events, s)
    ensures Timely(s.calls) && Earned(s)
  {
    if events != [] {
      var last := events[|events| - 1];
      var before :| Reaches(events[..|events| - 1], before) && Enabled(before, last) && s == Next(before, last);
      ReachableInv(events[..|events| - 1], before);
      ResultsAreTimely(events[..|events| - 1], before);
      EventTimely(before, last);
    }
  }

  lemma {:induction false} OneMore(events: seq<Event>, s: State, e: Event)
    requires Reaches(events, s) && Enabled(s, e)
    ensures Reaches(events + [e], Next(s, e))
  {
    var all := events + [e];
    assert all[..|all| - 1] == events && all[|all| - 1] == e;
    assert Reaches(all[..|all| - 1], s);
  }

  lemma {:induction false} RunCloses(events: seq<Event>, s: State, i: nat) returns (events': seq<Event>, s': State)
    requires Reaches(events, s) && i < |s.runs|
    requires s.runs[i].phase == Retiring(Result) && s.runs[i].closing == Some(Sent)
    ensures Reaches(events', s') && |s'.runs| == |s.runs| && Newest(s'.calls) == Newest(s.calls)
    ensures s'.runs[i] == s.runs[i].(pin := None, closing := Some(Erased), owned := false)
  {
    ReachableInv(events, s);
    NewestAppend(s.calls, [CloseDone(s.runs[i].pin.value)]);
    OneMore(events, s, PinClosed(i));
    events', s' := events + [PinClosed(i)], Next(s, PinClosed(i));
    assert s'.calls + [] == s'.calls;
    OneMore(events', s', RunErased(i));
    events', s' := events' + [RunErased(i)], Next(s', RunErased(i));
  }

  lemma {:induction false} RunAnswers(events: seq<Event>, s: State, i: nat) returns (events': seq<Event>, s': State)
    requires Reaches(events, s) && i < |s.runs|
    requires s.runs[i].phase == Retiring(Result) && s.runs[i].closing == Some(Erased)
    ensures Reaches(events', s') && Newest(s'.calls) == Newest(s.calls)
    ensures |s'.calls| > 0 && s'.calls[|s'.calls| - 1] == Answered(i, Result)
  {
    ReachableInv(events, s);
    assert s.calls + [] == s.calls;
    OneMore(events, s, ClosingEnded(i));
    events', s' := events + [ClosingEnded(i)], Next(s, ClosingEnded(i));
    ReachableInv(events', s');
    NewestAppend(s'.calls, [Answered(i, Result)]);
    OneMore(events', s', RetireDone(i));
    events', s' := events' + [RetireDone(i)], Next(s', RetireDone(i));
  }

  /** The check is the last one: a run superseded while its own pin closes still
      gives out the result it has computed. */
  lemma {:induction false} LateAnswer(events: seq<Event>, s: State, i: nat) returns (events': seq<Event>, s': State)
    requires Reaches(events, s) && i < |s.runs| && !s.disposed
    requires s.runs[i].phase == Retiring(Result) && s.runs[i].closing == Some(Sent)
    ensures Reaches(events', s') && |s'.calls| > 0
    ensures Newest(s'.calls) == Some(|s.runs|) && s'.calls[|s'.calls| - 1] == Answered(i, Result)
  {
    ReachableInv(events, s);
    OneMore(events, s, Event.Query);
    RetiringStays(s, i);
    events', s' := RunCloses(events + [Event.Query], Begin(s), i);
    events', s' := RunAnswers(events', s', i);
  }

  /** Such a state is reached by one query that meets no trouble. */
  lemma {:induction false} OneQueryComputes() returns (events: seq<Event>, s: State)
    ensures Reaches(events, s) && |s.runs| == 1 && !s.disposed
    ensures s.runs[0].phase == Retiring(Result) && s.runs[0].closing == Some(Sent)
  {
    var begun := Begin(START);
    assert Admit(CancelAll(START)) == State([NEW_RUN], false, [Fenced, Started(0)]);
    assert begun.runs == [NEW_RUN.(phase := Waiting(Awaited([NEW_RUN])))];
    OneMore([], START, Event.Query);
    events, s := PassWaits([] + [Event.Query], begun);
    events, s := PassReads(events, s);
  }

  lemma {:induction false} PassWaits(events: seq<Event>, s: State) returns (events': seq<Event>, s': State)
    requires Reaches(events, s) && s.runs == [NEW_RUN.(phase := Waiting(Awaited([NEW_RUN])))]
    requires !s.disposed && s.calls == [Fenced, Started(0)]
    ensures Reaches(events', s') && !s'.disposed
    ensures s'.runs == [NEW_RUN.(phase := Reading(false), reading := true, pin := Some(0))]
  {
    OneMore(events, s, OthersClosed(0, true, true));
    events', s' := events + [OthersClosed(0, true, true)], Next(s, OthersClosed(0, true, true));
    assert s'.calls == [Fenced, Started(0)];
    OneMore(events', s', IndexReady(0, true, true));
    events', s' := events' + [IndexReady(0, true, true)], Next(s', IndexReady(0, true, true));
    assert s'.calls == [Fenced, Started(0)];
    events', s' := PassOpen(events', s');
  }

  lemma {:induction false} PassOpen(events: seq<Event>, s: State) returns (events': seq<Event>, s': State)
    requires Reaches(events, s) && !s.disposed && s.calls == [Fenced, Started(0)]
    requires s.runs == [NEW_RUN.(phase := Opening, opening := true)]
    ensures Reaches(events', s') && !s'.disposed
    ensures s'.runs == [NEW_RUN.(phase := Reading(false), reading := true, pin := Some(0))]
  {
    events', s' := events, s;
    assert s'.calls == [] + [Fenced, Started(0)];
    TrackAppend([], [Fenced, Started(0)], 0);
    OthersUnused(Unknown, [Fenced, Started(0)], 0);
    OneMore(events', s', PinOpened(0, 0, true));
    events', s' := events' + [PinOpened(0, 0, true)], Next(s', PinOpened(0, 0, true));
  }

  lemma {:induction false} PassReads(events: seq<Event>, s: State) returns (events': seq<Event>, s': State)
    requires Reaches(events, s) && !s.disposed
    requires s.runs == [NEW_RUN.(phase := Reading(false), reading := true, pin := Some(0))]
    ensures Reaches(events', s') && |s'.runs| == 1 && !s'.disposed
    ensures s'.runs[0].phase == Retiring(Result) && s'.runs[0].closing == Some(Sent)
  {
    OneMore(events, s, ReadSettled(0, true));
    events', s' := events + [ReadSettled(0, true)], Next(s, ReadSettled(0, true));
    OneMore(events', s', Resumed(0, true, true));
    events', s' := events' + [Resumed(0, true, true)], Next(s', Resumed(0, true, true));
    assert s'.runs == [NEW_RUN.(phase := Reading(true), reading := true, pin := Some(0))];
    OneMore(events', s', ReadSettled(0, true));
    events', s' := events' + [ReadSettled(0, true)], Next(s', ReadSettled(0, true));
    OneMore(events', s', Resumed(0, true, true));
    events', s' := events' + [Resumed(0, true, true)], Next(s', Resumed(0, true, true));
  }

  lemma {:induction false} CancelLeavesClosing(s: State, k: nat, i: nat)
    requires k <= |s.runs| && i < |s.runs| && s.runs[i].closing.Some? && !s.runs[i].active
    ensures CancelFrom(s, k).runs[i] == s.runs[i]
    decreases |s.runs| - k
  {
    if k < |s.runs| { CancelLeavesClosing(CancelRun(s, k), k + 1, i); }
  }

  lemma {:induction false} CloseOthersLeavesClosing(s: State, k: nat, i: nat)
    requires k <= |s.runs| && i < |s.runs| && s.runs[i].closing.Some? && !s.runs[i].active
    ensures CloseOthers(s, k).runs[i] == s.runs[i]
    decreases |s.runs| - k
  {
    if k < |s.runs| { CloseOthersLeavesClosing(CloseIdle(s, k), k + 1, i); }
  }

  /** A new query does not disturb a close under way. */
  lemma {:induction false} RetiringStays(s: State, i: nat)
    requires Inv(s) && i < |s.runs| && s.runs[i].closing.Some? && !s.disposed
    ensures i < |Begin(s).runs| && Begin(s).runs[i] == s.runs[i]
    ensures Newest(Begin(s).calls) == Some(|s.runs|)
  {
    CancelLeavesClosing(s.(calls := s.calls + [Fenced]), 0, i);
    CancelAllKeeps(s, false);
    var admitted := Admit(CancelAll(s));
    SayKeeps(CancelAll(s), Started(|s.runs|), admitted);
    CloseOthersLeavesClosing(admitted, 0, i);
    CloseOthersKeeps(admitted, 0);
    var closed := CloseOthers(admitted, 0);
    assert closed.calls + [] == closed.calls;
  }

  // ----- the runner

  /** The runner's fields. Each method is one stretch between two waits; `calls`
      records what it asked of the service. */
  class Runner {
    var runs: seq<Run>
    var disposed: bool
    ghost var calls: seq<Call>

    ghost function Now(): State
      reads this
    {
      State(runs, disposed, calls)
    }

    constructor ()
      ensures Now() == START
    {
      runs, disposed, calls := [], false, [];
    }

    method CloseRun(i: nat)
      requires i < |runs|
      modifies this
      ensures Now() == Close(old(Now()), i, old(runs[i]))
    {
      var run := runs[i];
      assert runs[i := run] == runs && calls + [] == calls;
      if run.closing.Some? || run.opening || run.reading { return; }
      if run.pin.None? {
        runs := runs[i := run.(erasing := true)];
      } else {
        runs := runs[i := run.(closing := Some(Sent))];
        calls := calls + [CloseSent(run.pin.value)];
      }
    }

    method CancelRuns()
      modifies this
      ensures Now() == CancelAll(old(Now()))
    {
      calls := calls + [Fenced];
      ghost var start := Now();
      var i := 0;
      while i < |runs|
        invariant i <= |runs| && CancelFrom(Now(), i) == CancelFrom(start, 0)
      {
        if runs[i].owned {
          ghost var before := Now();
          runs := runs[i := runs[i].(active := false)];
          CloseRun(i);
          assert Now() == CancelRun(before, i);
        }
        i := i + 1;
      }
    }

    method Cancel()
      modifies this
      ensures Now() == Next(old(Now()), Event.Cancel)
    {
      CancelRuns();
    }

    method Dispose()
      modifies this
      ensures Now() == Next(old(Now()), Event.Dispose)
    {
      disposed := true;
      CancelRuns();
    }

    /** The start of `query`; `None` is the thrown cancellation. */
    method Query() returns (id: Option<nat>)
      modifies this
      ensures Now() == Next(old(Now()), Event.Query)
      ensures id == if old(disposed) then None else Some(old(|runs|))
    {
      if disposed { return None; }
      CancelRuns();
      var last := |runs|;
      calls := calls + [Started(last)];
      runs := runs + [NEW_RUN];
      ghost var admitted := Now();
      var i := 0;
      while i < |runs|
        invariant i <= |runs| == last + 1 && CloseOthers(Now(), i) == CloseOthers(admitted, 0)
      {
        if runs[i].owned && !runs[i].active { CloseRun(i); }
        i := i + 1;
      }
      var awaited := Awaited(runs);
      runs := runs[last := runs[last].(phase := Waiting(awaited))];
      assert calls + [] == calls;
      return Some(last);
    }

    /** The `finally` of a query. */
    method Finish(i: nat, outcome: Outcome)
      requires i < |runs|
      modifies this
      ensures Now() == Finally(old(Now()), i, old(runs[i]), [], outcome)
    {
      runs := runs[i := runs[i].(active := false, phase := Retiring(outcome))];
      CloseRun(i);
      ghost var shut := Shut(old(runs[i]).(active := false, phase := Retiring(outcome)));
      assert [] + shut.1 == shut.1;
    }

    method StartRead(i: nat, last: bool)
      requires i < |runs| && runs[i].pin.Some?
      modifies this
      ensures Now() == Read(old(Now()), i, old(runs[i]), [], last)
    {
      runs := runs[i := runs[i].(reading := true, phase := Reading(last))];
      calls := calls + [ReadSent(runs[i].pin.value)];
      assert [] + [ReadSent(runs[i].pin.value)] == [ReadSent(runs[i].pin.value)];
    }

    method AfterOthers(i: nat, current: bool, valid: bool)
      requires Enabled(Now(), OthersClosed(i, current, valid))
      modifies this
      ensures Now() == Next(old(Now()), OthersClosed(i, current, valid))
    {
      if !disposed && runs[i].active && current && valid {
        runs := runs[i := runs[i].(phase := Maintaining)];
        assert calls + [] == calls;
      } else { Finish(i, Thrown); }
    }

    method AfterIndex(i: nat, current: bool, valid: bool)
      requires Enabled(Now(), IndexReady(i, current, valid))
      modifies this
      ensures Now() == Next(old(Now()), IndexReady(i, current, valid))
    {
      if !disposed && runs[i].active && current && valid {
        runs := runs[i := runs[i].(opening := true, phase := Opening)];
        assert calls + [] == calls;
      } else { Finish(i, Thrown); }
    }

    method AfterOpen(i: nat, handle: Handle, current: bool)
      requires Enabled(Now(), PinOpened(i, handle, current))
      modifies this
      ensures Now() == Next(old(Now()), PinOpened(i, handle, current))
    {
      runs := runs[i := runs[i].(pin := Some(handle), opening := false)];
      calls := calls + [OpenDone(i, handle)];
      if !disposed && runs[i].active && current {
        StartRead(i, false);
        assert old(calls) + [OpenDone(i, handle)] + [ReadSent(handle)] == old(calls) + ([OpenDone(i, handle)] + [ReadSent(handle)]);
      } else {
        ghost var shut := Shut(runs[i].(active := false, phase := Retiring(Thrown)));
        Finish(i, Thrown);
        assert old(calls) + [OpenDone(i, handle)] + ([] + shut.1) == old(calls) + ([OpenDone(i, handle)] + shut.1);
      }
    }

    method AfterRead(i: nat, ok: bool)
      requires Enabled(Now(), ReadSettled(i, ok))
      modifies this
      ensures Now() == Next(old(Now()), ReadSettled(i, ok))
    {
      var run := runs[i];
      runs := runs[i := run.(reading := false, phase := Resuming(run.phase.last, ok))];
      calls := calls + About(run, (h: Handle) => ReadDone(h));
    }

    method Resume(i: nat, current: bool, valid: bool)
      requires Enabled(Now(), Resumed(i, current, valid))
      modifies this
      ensures Now() == Next(old(Now()), Resumed(i, current, valid))
    {
      var run := runs[i];
      if !run.phase.ok || disposed || !run.active || !current || !valid || run.pin.None? {
        Finish(i, Thrown);
      } else if !run.phase.last {
        StartRead(i, true);
      } else {
        calls := calls + [Computed(i)];
        ghost var shut := Shut(run.(active := false, phase := Retiring(Result)));
        Finish(i, Result);
        assert old(calls) + [Computed(i)] + ([] + shut.1) == old(calls) + ([Computed(i)] + shut.1);
      }
    }
  }
}
