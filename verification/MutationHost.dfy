/** The mutation host: one command at a time on a shared buffer, and the custody
    of the saved-source captures that guard conditional saves. */
module MutationHost {
  import opened Platforms

  type BufferId = nat
  type CaptureId = nat
  type Attempt = nat

  /** What a buffer says of a capture of its saved source. */
  datatype Standing = Unattached | Pending | Settled | Foreign

  /** The saved identity that a query or a capture was made for. */
  datatype Seal = Seal(entry: string, revision: string, path: string)

  datatype Capture = Capture(owner: BufferId, standing: Standing, source: string, seal: Seal)

  datatype Buffer = Buffer(path: string, text: string, saved: string, dirty: bool, error: bool, conflict: bool,
                           seal: Option<Seal>)

  datatype Retained = Retained(attempt: Attempt, capture: CaptureId, original: string, desired: Option<string>)

  // ----- custody

  /** `conditional`, `conditionalAttempts`, and the captures they speak of. */
  datatype Ledger = Ledger(conditional: map<BufferId, Retained>, attempts: map<Attempt, (BufferId, CaptureId)>,
                           captures: map<CaptureId, Capture>)

  predicate Unsettled(c: Capture) { c.standing.Unattached? || c.standing.Pending? }

  /** The two maps are each other's inverse, and every capture that is neither
      released nor attached and settled is the one its buffer retains. */
  predicate Sound(l: Ledger) {
    && (forall b :: b in l.conditional ==>
          var r := l.conditional[b];
          r.attempt in l.attempts && l.attempts[r.attempt] == (b, r.capture) && r.capture in l.captures && l.captures[r.capture].owner == b)
    && (forall a :: a in l.attempts ==>
          l.attempts[a].0 in l.conditional
          && l.conditional[l.attempts[a].0].attempt == a && l.conditional[l.attempts[a].0].capture == l.attempts[a].1)
    && (forall c :: c in l.captures && Unsettled(l.captures[c]) ==>
          l.captures[c].owner in l.conditional && l.conditional[l.captures[c].owner].capture == c)
  }

  /** At most one capture of a buffer is unsettled, and one attempt holds it. */
  lemma {:induction false} OneUnsettledCapture(l: Ledger, c: CaptureId, d: CaptureId)
    requires Sound(l) && c in l.captures && d in l.captures && l.captures[c].owner == l.captures[d].owner
    requires Unsettled(l.captures[c]) && Unsettled(l.captures[d])
    ensures c == d
    ensures exists a :: a in l.attempts && l.attempts[a] == (l.captures[c].owner, c)
                        && forall a' :: a' in l.attempts && l.attempts[a'].0 == l.captures[c].owner ==> a' == a
  {
    var b := l.captures[c].owner;
    var a := l.conditional[b].attempt;
    assert a in l.attempts && l.attempts[a] == (b, c);
  }

  function Retain(l: Ledger, b: BufferId, r: Retained): Ledger {
    l.(conditional := l.conditional[b := r], attempts := l.attempts[r.attempt := (b, r.capture)])
  }

  function Forget(l: Ledger, b: BufferId, a: Attempt): Ledger {
    l.(conditional := l.conditional - {b}, attempts := l.attempts - {a})
  }

  function Stand(l: Ledger, c: CaptureId, s: Standing): Ledger
    requires c in l.captures
  {
    l.(captures := l.captures[c := l.captures[c].(standing := s)])
  }

  lemma {:induction false} RetainSound(l: Ledger, b: BufferId, r: Retained, capture: Capture)
    requires Sound(l) && b !in l.conditional && r.attempt !in l.attempts && r.capture !in l.captures && capture.owner == b
    ensures Sound(Retain(l.(captures := l.captures[r.capture := capture]), b, r))
  {
  }

  /** Forgetting is right when the buffer holds nothing, or holds this attempt's
      capture and that is settled or lost. */
  lemma {:induction false} ForgetSound(l: Ledger, b: BufferId, a: Attempt)
    requires Sound(l)
    requires b in l.conditional ==> l.conditional[b].attempt == a && !Unsettled(l.captures[l.conditional[b].capture])
    requires a in l.attempts ==> b in l.conditional
    ensures Sound(Forget(l, b, a))
  {
    var l' := Forget(l, b, a);
    forall a' | a' in l'.attempts
      ensures l'.attempts[a'].0 in l'.conditional
           && l'.conditional[l'.attempts[a'].0].attempt == a' && l'.conditional[l'.attempts[a'].0].capture == l'.attempts[a'].1
    {
      assert a' in l.attempts;
    }
  }

  /** What a capture may become without the host: settled, or lost. */
  predicate Drifts(s: Standing, t: Standing) {
    s == t || t.Foreign? || (t.Settled? && !s.Foreign?)
  }

  predicate Drifted(l: map<CaptureId, Capture>, m: map<CaptureId, Capture>) {
    && l.Keys == m.Keys
    && forall c :: c in l ==> m[c].owner == l[c].owner && m[c].source == l[c].source && m[c].seal == l[c].seal
                              && Drifts(l[c].standing, m[c].standing)
  }

  lemma {:induction false} DriftSound(l: Ledger, captures: map<CaptureId, Capture>)
    requires Sound(l) && Drifted(l.captures, captures)
    ensures Sound(l.(captures := captures))
  {
  }

  lemma {:induction false} StandSound(l: Ledger, b: BufferId, s: Standing)
    requires Sound(l) && b in l.conditional
    ensures Sound(Stand(l, l.conditional[b].capture, s))
  {
  }

  /** Only what buffer `b` retains may differ, and what was settled stays so. */
  predicate Proceeds(b: BufferId, l: Ledger, m: Ledger) {
    && l.conditional - {b} == m.conditional - {b}
    && forall c :: c in l.captures && !Unsettled(l.captures[c]) ==> c in m.captures && !Unsettled(m.captures[c])
  }

  // ----- the host

  /** Everything outside the host: what the buffers and captures are when a wait
      ends, and how each call and check turns out. */
  datatype Surroundings = Surroundings(buffers: map<BufferId, Buffer>, captures: map<CaptureId, Capture>)

  datatype Command = Command(
    path: string,
    expected: Option<Seal>,
    attempt: Option<Attempt>,          // of a conditional source
    transform: string -> Option<string>)

  datatype Outcome = Done | Failed(reason: string)

  /** A text put into a buffer in place of `source`, with the attempt it came from and
      the attempt that the buffer retained at that moment. */
  datatype Update = Update(buffer: BufferId, attempt: Option<Attempt>, holder: Option<Attempt>, source: string, text: string)

  const RELEASE_FAILED := "release also failed"

  /** The update is the command's transform of the text that was in the buffer. */
  predicate Carries(cmd: Command, b: BufferId, u: Update) {
    u.buffer == b && u.attempt == cmd.attempt && cmd.transform(u.source) == Some(u.text)
  }

  class Host {
    var buffers: map<BufferId, Buffer>
    var ledger: Ledger
    ghost var updates: seq<Update>
    var clock: nat
    const waits: nat -> Surroundings
    const answers: nat -> bool

    ghost predicate Valid()
      reads this
    {
      && Sound(ledger)
      && (forall c :: c in ledger.captures ==> c < clock)
      && forall i :: 0 <= i < |updates| ==> updates[i].holder in {None, updates[i].attempt}
    }

    constructor (buffers: map<BufferId, Buffer>, waits: nat -> Surroundings, answers: nat -> bool)
      ensures Valid() && ledger == Ledger(map[], map[], map[]) && updates == []
    {
      this.buffers, this.waits, this.answers := buffers, waits, answers;
      ledger, updates, clock := Ledger(map[], map[], map[]), [], 0;
    }

    /** One `await`: the buffers change at will, the captures as they may. */
    method Wait()
      requires Valid()
      modifies `buffers, `ledger, `clock
      ensures Valid() && ledger.conditional == old(ledger.conditional) && ledger.attempts == old(ledger.attempts)
      ensures Drifted(old(ledger.captures), ledger.captures) && old(buffers).Keys <= buffers.Keys
    {
      var next := waits(clock);
      clock := clock + 1;
      if buffers.Keys <= next.buffers.Keys { buffers := next.buffers; }
      if Drifted(ledger.captures, next.captures) {
        DriftSound(ledger, next.captures);
        ledger := ledger.(captures := next.captures);
      }
    }

    /** How a check or a call turns out. */
    method Ask() returns (yes: bool)
      modifies `clock
      ensures old(Valid()) ==> Valid()
    {
      yes := answers(clock);
      clock := clock + 1;
    }

    /** The command may act on the buffer: whatever the buffer retains is its own. */
    ghost predicate Holds(cmd: Command, b: BufferId)
      reads this
    {
      && b in buffers
      && (b in ledger.conditional ==> cmd.attempt == Some(ledger.conditional[b].attempt))
      && (cmd.attempt.Some? && cmd.attempt.value in ledger.attempts ==> ledger.attempts[cmd.attempt.value].0 == b)
    }

    /** The attempt that the buffer retains. */
    function Holder(b: BufferId): Option<Attempt>
      reads this
    {
      if b in ledger.conditional then Some(ledger.conditional[b].attempt) else None
    }

    function Held(b: BufferId): Option<Capture>
      reads this
    {
      if b in ledger.conditional && ledger.conditional[b].capture in ledger.captures
      then Some(ledger.captures[ledger.conditional[b].capture]) else None
    }

    predicate IsHeld(b: BufferId, standing: Standing)
      reads this
    {
      Held(b).Some? && Held(b).value.standing == standing
    }

    /** A generic save may have settled the original command: its acknowledged text
        is all there is in the buffer. */
    predicate Retirable(b: BufferId)
      requires b in buffers && b in ledger.conditional && ledger.conditional[b].capture in ledger.captures
      reads this
    {
      var buffer, r := buffers[b], ledger.conditional[b];
      var capture := ledger.captures[r.capture];
      && capture.standing.Settled? && !buffer.dirty && !buffer.error && !buffer.conflict
      && r.desired == Some(buffer.text) && buffer.saved == buffer.text
      && buffer.seal.Some? && buffer.seal.value.entry == capture.seal.entry && buffer.seal.value.path == capture.seal.path
    }

    /** The checks on what the buffer retains. */
    method Admit(cmd: Command, b: BufferId) returns (o: Outcome)
      requires Valid() && b in buffers
      modifies `ledger
      ensures Valid() && ledger.captures == old(ledger.captures)
      ensures o.Done? ==> Holds(cmd, b)
      ensures (b in old(ledger.conditional) && cmd.attempt != Some(old(ledger.conditional[b].attempt))
               && Unsettled(old(ledger.captures[ledger.conditional[b].capture]))) ==> o.Failed? && ledger == old(ledger)
      ensures Proceeds(b, old(ledger), ledger)
    {
      var known := cmd.attempt.Some? && cmd.attempt.value in ledger.attempts;
      if known && ledger.attempts[cmd.attempt.value].0 != b { return Failed("buffer replaced"); }
      if b in ledger.conditional && cmd.attempt != Some(ledger.conditional[b].attempt) && Retirable(b) {
        ForgetSound(ledger, b, ledger.conditional[b].attempt);
        ledger := Forget(ledger, b, ledger.conditional[b].attempt);
      }
      if known && (b !in ledger.conditional || ledger.attempts[cmd.attempt.value].1 != ledger.conditional[b].capture) {
        return Failed("capture no longer owned");
      }
      if b in ledger.conditional && cmd.attempt != Some(ledger.conditional[b].attempt) {
        return Failed("retry the original command");
      }
      if IsHeld(b, Standing.Foreign) { return Failed("save no longer owned"); }
      return Done;
    }

    /** `transform`. */
    method Transform(cmd: Command, b: BufferId) returns (o: Outcome)
      requires Valid()
      modifies this
      ensures Valid() && Proceeds(b, old(ledger), ledger)
      ensures updates == old(updates) || exists u :: updates == old(updates) + [u] && Carries(cmd, b, u)
      ensures o.Done? ==> b !in ledger.conditional && (cmd.attempt.Some? ==> cmd.attempt.value !in ledger.attempts)
      // while another attempt is unsettled, the command does not touch the buffer
      ensures (b in old(ledger.conditional) && cmd.attempt != Some(old(ledger.conditional[b].attempt))
               && old(ledger.conditional[b].capture) in ledger.captures
               && Unsettled(ledger.captures[old(ledger.conditional[b].capture)]))
              ==> o.Failed? && updates == old(updates) && ledger.conditional == old(ledger.conditional)
    {
      o := Load(cmd, b);
      if o.Failed? { return; }
      o := Admit(cmd, b);
      if o.Failed? { return; }
      o := Carry(cmd, b);
    }

    method Carry(cmd: Command, b: BufferId) returns (o: Outcome)
      requires Valid() && Holds(cmd, b)
      modifies this
      ensures Valid() && Proceeds(b, old(ledger), ledger)
      ensures updates == old(updates) || exists u :: updates == old(updates) + [u] && Carries(cmd, b, u)
      ensures o.Done? ==> b !in ledger.conditional && (cmd.attempt.Some? ==> cmd.attempt.value !in ledger.attempts)
    {
      var admitted;
      o, admitted := Check(cmd, b);
      if o.Failed? { return; }
      o := Guarded(cmd, b, admitted);
      if o.Failed? { o := CleanUp(cmd, b, o); }
    }

    method Load(cmd: Command, b: BufferId) returns (o: Outcome)
      requires Valid()
      modifies `buffers, `ledger, `clock
      ensures Valid() && ledger.conditional == old(ledger.conditional) && ledger.attempts == old(ledger.attempts)
      ensures Drifted(old(ledger.captures), ledger.captures)
      ensures o.Done? ==> b in buffers && buffers[b].path == cmd.path
    {
      var ok := Ask();
      if !ok { return Failed("not valid"); }
      Wait();
      ok := Ask();
      if !ok || b !in buffers { return Failed("no buffer"); }
      ok := Ask();
      if !ok { return Failed("not valid"); }
      return if buffers[b].path == cmd.path then Done else Failed("file moved");
    }

    /** The witness of the saved text, reloaded when a newer revision may be had
        without disturbing a draft or a retained attempt. */
    method Check(cmd: Command, b: BufferId) returns (o: Outcome, admitted: Option<Seal>)
      requires Valid() && Holds(cmd, b)
      modifies `buffers, `ledger, `clock
      ensures Valid() && Holds(cmd, b)
      ensures ledger.conditional == old(ledger.conditional) && ledger.attempts == old(ledger.attempts)
      ensures Drifted(old(ledger.captures), ledger.captures)
    {
      admitted := buffers[b].seal;
      var pending := IsHeld(b, Pending);
      var buffer := buffers[b];
      if cmd.expected.Some? && admitted.Some? && admitted.value.entry == cmd.expected.value.entry
         && admitted.value.path == cmd.path && admitted.value.revision != cmd.expected.value.revision
         && b !in ledger.conditional && !buffer.dirty && !buffer.error && !buffer.conflict {
        Wait(); // reload
        var ok := Ask();
        if !ok { return Failed("not valid"), admitted; }
        if buffers[b].path != cmd.path { return Failed("file moved"), admitted; }
        admitted := buffers[b].seal;
      }
      if cmd.expected.Some?
         && (admitted.None? || admitted.value.entry != cmd.expected.value.entry || admitted.value.path != cmd.path
             || (!pending && admitted.value.revision != cmd.expected.value.revision)) {
        return Failed("stale result"), admitted;
      }
      return Done, admitted;
    }

    method Forgo(cmd: Command, b: BufferId)
      requires Valid() && Holds(cmd, b) && (b in ledger.conditional ==> !Unsettled(ledger.captures[ledger.conditional[b].capture]))
      modifies `ledger
      ensures Valid() && Holds(cmd, b) && b !in ledger.conditional && ledger.captures == old(ledger.captures)
      ensures Proceeds(b, old(ledger), ledger)
      ensures cmd.attempt.Some? ==> cmd.attempt.value !in ledger.attempts
    {
      if cmd.attempt.Some? {
        ForgetSound(ledger, b, cmd.attempt.value);
        ledger := Forget(ledger, b, cmd.attempt.value);
      }
    }

    /** `releaseConditionalSavedSource` of the capture that the buffer retains. */
    method Release(cmd: Command, b: BufferId) returns (ok: bool)
      requires Valid() && Holds(cmd, b) && IsHeld(b, Unattached)
      modifies `buffers, `ledger, `clock
      ensures Valid() && Holds(cmd, b) && ledger.conditional == old(ledger.conditional) && ledger.attempts == old(ledger.attempts)
      ensures Proceeds(b, old(ledger), ledger) && old(ledger.captures).Keys == ledger.captures.Keys
      ensures ok ==> b in ledger.conditional && !Unsettled(ledger.captures[ledger.conditional[b].capture])
    {
      Wait();
      ok := Ask();
      if ok { SettleUnused(cmd, b); }
    }

    method SettleUnused(cmd: Command, b: BufferId)
      requires Valid() && Holds(cmd, b) && b in ledger.conditional
      modifies `ledger
      ensures Valid() && Holds(cmd, b) && ledger.conditional == old(ledger.conditional) && ledger.attempts == old(ledger.attempts)
      ensures Proceeds(b, old(ledger), ledger) && old(ledger.captures).Keys == ledger.captures.Keys
      ensures old(IsHeld(b, Unattached)) ==> !Unsettled(ledger.captures[ledger.conditional[b].capture])
      ensures !old(IsHeld(b, Unattached)) ==> ledger == old(ledger)
    {
      if IsHeld(b, Unattached) {
        StandSound(ledger, b, Settled);
        ledger := Stand(ledger, ledger.conditional[b].capture, Settled);
      }
    }

    /** The `catch`: an unused capture is released; any other stays retained. */
    method CleanUp(cmd: Command, b: BufferId, failure: Outcome) returns (o: Outcome)
      requires Valid() && Holds(cmd, b) && failure.Failed?
      modifies `buffers, `ledger, `clock
      ensures Valid() && o.Failed? && Proceeds(b, old(ledger), ledger) && old(ledger.captures).Keys == ledger.captures.Keys
      ensures !old(IsHeld(b, Unattached)) ==> o == failure && ledger == old(ledger)
      // a released capture is forgotten; one that could not be released stays retained
      ensures old(IsHeld(b, Unattached)) && b !in ledger.conditional ==>
                o == failure && cmd.attempt.Some? && cmd.attempt.value !in ledger.attempts
                && !Unsettled(ledger.captures[old(ledger.conditional[b].capture)])
      ensures old(IsHeld(b, Unattached)) && b in ledger.conditional ==>
                o == Failed(RELEASE_FAILED) && ledger.conditional == old(ledger.conditional) && ledger.attempts == old(ledger.attempts)
    {
      if !IsHeld(b, Unattached) { return failure; }
      var ok := Release(cmd, b);
      if !ok { return Failed(RELEASE_FAILED); }
      Forgo(cmd, b);
      return failure;
    }

    /** The capture of the physical source, when the command is conditional. */
    method TakeCapture(cmd: Command, b: BufferId, admitted: Option<Seal>) returns (o: Outcome)
      requires Valid() && Holds(cmd, b)
      modifies `buffers, `ledger, `clock
      ensures Valid() && Holds(cmd, b) && Proceeds(b, old(ledger), ledger)
    {
      if cmd.attempt.None? || b in ledger.conditional || admitted.None? { return Done; }
      var ok := Ask();
      if !ok { return Failed("capture unavailable"); }
      var original := buffers[b].saved;
      Wait();
      ok := Ask();
      if !ok { return Failed("capture refused"); }
      var given := Ask();
      if !given { return Done; }
      o := Retaining(cmd, b, admitted.value, original);
    }

    /** A new capture is retained before anything is checked of it. */
    method Retaining(cmd: Command, b: BufferId, admitted: Seal, original: string) returns (o: Outcome)
      requires Valid() && Holds(cmd, b) && cmd.attempt.Some? && b !in ledger.conditional
      modifies `ledger, `clock
      ensures Valid() && Holds(cmd, b) && Proceeds(b, old(ledger), ledger)
      ensures IsHeld(b, Unattached)
    {
      var c, next := clock, waits(clock);
      clock := clock + 1;
      var seal := if c in next.captures then next.captures[c].seal else admitted;
      var source := if c in next.captures then next.captures[c].source else original;
      var capture := Capture(b, Unattached, source, seal);
      var retained := Retained(cmd.attempt.value, c, original, None);
      RetainSound(ledger, b, retained, capture);
      ledger := Retain(ledger.(captures := ledger.captures[c := capture]), b, retained);
      return if seal.entry == admitted.entry && seal.revision == admitted.revision && seal.path == cmd.path then Done
             else Failed("captured another revision");
    }

    /** The `try` of `transform`. */
    method Guarded(cmd: Command, b: BufferId, admitted: Option<Seal>) returns (o: Outcome)
      requires Valid() && Holds(cmd, b)
      modifies this
      ensures Valid() && Holds(cmd, b) && Proceeds(b, old(ledger), ledger)
      ensures o.Done? ==> b !in ledger.conditional && (cmd.attempt.Some? ==> cmd.attempt.value !in ledger.attempts)
      ensures updates == old(updates) || exists u :: updates == old(updates) + [u] && Carries(cmd, b, u)
    {
      o := TakeCapture(cmd, b, admitted);
      if o.Failed? { return; }
      if b in ledger.conditional {
        var ok := Ask(); // identity, and the command's own check of the physical source
        if !ok { return Failed("source changed"); }
      }
      var source := buffers[b].text;
      var next := cmd.transform(source);
      if next.None? { return Failed("transform"); }
      var ok := Ask();
      if !ok { return Failed("not valid"); }
      if next.value == source && !buffers[b].dirty && !buffers[b].error && !IsHeld(b, Pending) {
        o := LeaveUnchanged(cmd, b);
      } else {
        o := UpdateBuffer(cmd, b, next.value);
        if o.Done? { o := Save(cmd, b); }
      }
    }

    method LeaveUnchanged(cmd: Command, b: BufferId) returns (o: Outcome)
      requires Valid() && Holds(cmd, b) && !IsHeld(b, Pending)
      modifies `buffers, `ledger, `clock
      ensures Valid() && Holds(cmd, b) && Proceeds(b, old(ledger), ledger)
      ensures o.Done? ==> b !in ledger.conditional && (cmd.attempt.Some? ==> cmd.attempt.value !in ledger.attempts)
    {
      if IsHeld(b, Unattached) {
        var ok := Release(cmd, b);
        if !ok { return Failed("release"); }
      }
      Forgo(cmd, b);
      return Done;
    }

    method Save(cmd: Command, b: BufferId) returns (o: Outcome)
      requires Valid() && Holds(cmd, b)
      modifies `buffers, `ledger, `clock
      ensures Valid() && Holds(cmd, b) && Proceeds(b, old(ledger), ledger)
      ensures o.Done? ==> b !in ledger.conditional && (cmd.attempt.Some? ==> cmd.attempt.value !in ledger.attempts)
    {
      Wait(); // flush
      var ok := Ask();
      if !ok { return Failed("save"); }
      if b in ledger.conditional && !IsHeld(b, Settled) { return Failed("save still pending"); }
      ok := Ask();
      if !ok { return Failed("not acknowledged"); }
      Forgo(cmd, b);
      return Done;
    }

    /** `buffer.update`, attaching the capture if it has not been attached before. */
    method UpdateBuffer(cmd: Command, b: BufferId, next: string) returns (o: Outcome)
      requires Valid() && Holds(cmd, b)
      modifies `buffers, `ledger, `clock, `updates
      ensures Valid() && Holds(cmd, b) && Proceeds(b, old(ledger), ledger)
      ensures o.Failed? ==> buffers == old(buffers) && ledger == old(ledger) && updates == old(updates)
      ensures o.Done? ==>
                && updates == old(updates) + [Update(b, cmd.attempt, old(Holder(b)), old(buffers[b].text), next)]
                && buffers == old(buffers)[b := buffers[b]] && buffers[b].text == next
                && ledger == Desire(Attach(old(ledger), b), b, next)
    {
      var ok := Ask();
      if !ok { return Failed("update"); }
      var dirty := Ask();
      AttachSound(ledger, b, next);
      updates := updates + [Update(b, cmd.attempt, Holder(b), buffers[b].text, next)];
      buffers := buffers[b := buffers[b].(text := next, dirty := dirty)];
      ledger := Desire(Attach(ledger, b), b, next);
      return Done;
    }
  }

  /** An unattached capture becomes part of the buffer's next write. */
  function Attach(l: Ledger, b: BufferId): Ledger {
    if b in l.conditional && l.conditional[b].capture in l.captures && l.captures[l.conditional[b].capture].standing.Unattached?
    then Stand(l, l.conditional[b].capture, Pending) else l
  }

  /** The first text that a retained command asked for is kept. */
  function Desire(l: Ledger, b: BufferId, text: string): Ledger {
    if b in l.conditional && l.conditional[b].desired.None?
    then l.(conditional := l.conditional[b := l.conditional[b].(desired := Some(text))]) else l
  }

  lemma {:induction false} AttachSound(l: Ledger, b: BufferId, text: string)
    requires Sound(l)
    ensures Sound(Desire(Attach(l, b), b, text)) && Proceeds(b, l, Desire(Attach(l, b), b, text))
  {
    if b in l.conditional { StandSound(l, b, Pending); }
  }
}
