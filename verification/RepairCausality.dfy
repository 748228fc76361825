/** Ready is earned: what the three legs have in flight is always backed by what happened. */
module RepairCausality {
  import opened Prelude
  import opened BoardLeg
  import opened RepairLog
  import opened RepairBoard
  import opened RepairProtocol

  // ---- The invariant ------------------------------------------------------------------

  ghost predicate CommandOk(log: seq<Note>, c: RoomCommand) {
    c.Start? ==> WasProvisioned(c.binding) in log
  }

  ghost predicate RoomEventOk(log: seq<Note>, e: RoomEvent) {
    match e
    case Terminal(b, a) => RoomStarted(b, a) in log
    case Synchronized(b, a) => RoomSynchronized(b, a) in log
    case _ => true
  }

  /** Every attempt the log tells of has one of the first `starts` numbers. */
  ghost predicate NumbersBelow(log: seq<Note>, starts: nat) {
    forall j :: 0 <= j < |log| && log[j].RoomStarted? ==> log[j].attempt < starts
  }

  /** Behind its terminal, in the queue or already routed, an attempt has no more frames. */
  ghost predicate Spent(events: seq<RoomEvent>, log: seq<Note>, a: Attempt) {
    && (CarrierFinished(a.binding, a.number) in log ==> a.terminal && Outbound(a.binding) !in events)
    && forall j :: 0 <= j < |events| && events[j] == Terminal(a.binding, a.number) ==>
                     a.terminal && Outbound(a.binding) !in events[j + 1..]
  }

  ghost predicate AttemptOk(room: Room, log: seq<Note>) {
    room.attempt.Some? ==>
      var a := room.attempt.value;
      && RoomStarted(a.binding, a.number) in log && RoomSynchronized(a.binding, a.number) !in log
      && Spent(room.events, log, a)
  }

  /** A synchronization over its own close has no frame ahead of it, and none was routed since. */
  ghost predicate SyncOk(events: seq<RoomEvent>, log: seq<Note>, j: nat) {
    j < |events| && events[j].Synchronized? ==>
      forall y :: OwnClose(log, events[j].binding, events[j].attempt, y) ==>
                    && Outbound(events[j].binding) !in events[..j]
                    && (Replay(log).keyed == Some(events[j].binding) ==> NoOpenAfter(log, y))
  }

  ghost predicate RoomInv(room: Room, log: seq<Note>) {
    && (forall c :: c in room.commands ==> CommandOk(log, c))
    && (forall e :: e in room.events ==> RoomEventOk(log, e))
    && NumbersBelow(log, room.starts)
    && AttemptOk(room, log)
    && (forall j :: 0 <= j < |room.events| ==> SyncOk(room.events, log, j))
  }

  ghost predicate SystemInv(sys: System) {
    BoardInv(sys.board) && RoomInv(sys.room, sys.board.log)
  }

  // ---- The log grows --------------------------------------------------------------------

  /** Whatever the log tells about a placement was written after its keying. */
  lemma KeyedBefore(log: seq<Note>, b: Binding)
    requires LogInv(log) && WasProvisioned(b) in log
    ensures Keyed(b) in log
  {
    var p :| 0 <= p < |log| && log[p] == WasProvisioned(b);
    assert LawfulAt(log, p);
    LogPrefix(log, p);
    var k := KeyedMeans(log[..p]);
    assert log[k] == Keyed(b);
  }

  lemma StartedIsProvisioned(log: seq<Note>, b: Binding, a: nat)
    requires LogInv(log) && RoomStarted(b, a) in log
    ensures WasProvisioned(b) in log && Keyed(b) in log
  {
    var s :| 0 <= s < |log| && log[s] == RoomStarted(b, a);
    assert LawfulAt(log, s);
    KeyedBefore(log, b);
  }

  lemma SynchronizedIsStarted(log: seq<Note>, b: Binding, a: nat)
    requires LogInv(log) && RoomSynchronized(b, a) in log
    ensures RoomStarted(b, a) in log
  {
    var y :| 0 <= y < |log| && log[y] == RoomSynchronized(b, a);
    assert LawfulAt(log, y);
  }

  lemma FinishedIsStarted(log: seq<Note>, b: Binding, a: nat)
    requires LogInv(log) && CarrierFinished(b, a) in log
    ensures RoomStarted(b, a) in log
  {
    var f :| 0 <= f < |log| && log[f] == CarrierFinished(b, a);
    assert LawfulAt(log, f);
  }

  lemma TerminalIsStarted(room: Room, log: seq<Note>, b: Binding, a: nat)
    requires RoomInv(room, log) && Terminal(b, a) in room.events
    ensures RoomStarted(b, a) in log
  {
    assert RoomEventOk(log, Terminal(b, a));
  }

  lemma OwnCloseStays(log: seq<Note>, n: Note, b: Binding, a: nat, y: nat)
    requires y < |log|
    ensures OwnClose(log + [n], b, a, y) <==> OwnClose(log, b, a, y)
  {
    assert (log + [n])[..y] == log[..y];
  }

  /** A note that opens no carrier keeps what a waiting synchronization promises. */
  lemma SyncGrows(events: seq<RoomEvent>, log: seq<Note>, n: Note, j: nat)
    requires LogInv(log) && Lawful(log, n) && !n.CarrierOpened? && !n.RoomSynchronized?
    requires j < |events| && SyncOk(events, log, j) && RoomEventOk(log, events[j])
    ensures SyncOk(events, log + [n], j)
  {
    if events[j].Synchronized? {
      var b, a := events[j].binding, events[j].attempt;
      ReplayStep(log, n);
      SynchronizedIsStarted(log, b, a);
      StartedIsProvisioned(log, b, a);
      forall y: nat | OwnClose(log + [n], b, a, y)
        ensures Outbound(b) !in events[..j] && (Replay(log + [n]).keyed == Some(b) ==> NoOpenAfter(log + [n], y))
      {
        OwnCloseStays(log, n, b, a, y);
      }
    }
  }

  /** Notes of the board leg and of Ready leave the room's side as it was. */
  lemma RoomGrows(room: Room, log: seq<Note>, n: Note)
    requires LogInv(log) && Lawful(log, n) && RoomInv(room, log) && (Plain(n) || n.BecameReady?)
    ensures RoomInv(room, log + [n])
  {
    forall e | e in room.events ensures RoomEventOk(log + [n], e) {
      assert RoomEventOk(log, e);
    }
    forall c | c in room.commands ensures CommandOk(log + [n], c) {
      assert CommandOk(log, c);
    }
    forall j | 0 <= j < |room.events| ensures SyncOk(room.events, log + [n], j) {
      assert SyncOk(room.events, log, j);
      assert RoomEventOk(log, room.events[j]);
      SyncGrows(room.events, log, n, j);
    }
  }

  lemma {:induction false} PlainGrows(room: Room, log: seq<Note>, log': seq<Note>)
    requires LogInv(log') && PlainGrowth(log, log') && RoomInv(room, log)
    ensures RoomInv(room, log')
    decreases |log'|
  {
    if |log| < |log'| {
      var n := |log'| - 1;
      LogPrefix(log', n);
      assert LawfulAt(log', n);
      PlainGrows(room, log, log'[..n]);
      RoomGrows(room, log'[..n], log'[n]);
      assert log'[..n] + [log'[n]] == log';
    } else {
      assert log == log';
    }
  }

  /** A routed frame may open a carrier: no synchronization over its own close was behind it. */
  lemma OpenGrows(room: Room, log: seq<Note>, b: Binding)
    requires LogInv(log) && Lawful(log, CarrierOpened(b)) && RoomInv(room, log)
    requires forall j: nat, y: nat ::
               0 <= j < |room.events| && room.events[j].Synchronized? && room.events[j].binding == b ==>
                 !OwnClose(log, b, room.events[j].attempt, y)
    ensures RoomInv(room, log + [CarrierOpened(b)])
  {
    var n := CarrierOpened(b);
    ReplayStep(log, n);
    forall e | e in room.events ensures RoomEventOk(log + [n], e) {
      assert RoomEventOk(log, e);
    }
    forall c | c in room.commands ensures CommandOk(log + [n], c) {
      assert CommandOk(log, c);
    }
    forall j | 0 <= j < |room.events| ensures SyncOk(room.events, log + [n], j) {
      assert SyncOk(room.events, log, j);
      if room.events[j].Synchronized? {
        var b', a := room.events[j].binding, room.events[j].attempt;
        forall y: nat | OwnClose(log + [n], b', a, y)
          ensures b' != b && OwnClose(log, b', a, y)
        {
          if y < |log| {
            OwnCloseStays(log, n, b', a, y);
          }
        }
      }
    }
  }

  /** A routed terminal may finish the carrier: its attempt had no frame behind it. */
  lemma FinishGrows(room: Room, log: seq<Note>, b: Binding, m: nat)
    requires LogInv(log) && Lawful(log, CarrierFinished(b, m)) && RoomInv(room, log)
    requires room.attempt.Some? && room.attempt.value.binding == b && room.attempt.value.number == m ==>
               room.attempt.value.terminal && Outbound(b) !in room.events
    ensures RoomInv(room, log + [CarrierFinished(b, m)])
  {
    var n := CarrierFinished(b, m);
    forall e | e in room.events ensures RoomEventOk(log + [n], e) {
      assert RoomEventOk(log, e);
    }
    forall c | c in room.commands ensures CommandOk(log + [n], c) {
      assert CommandOk(log, c);
    }
    forall j | 0 <= j < |room.events| ensures SyncOk(room.events, log + [n], j) {
      assert SyncOk(room.events, log, j);
      assert RoomEventOk(log, room.events[j]);
      SyncGrows(room.events, log, n, j);
    }
  }

  // ---- The room's queues ------------------------------------------------------------------

  /** Events that carry no promise. */
  predicate Idle(e: RoomEvent) {
    !e.Outbound? && !e.Terminal? && !e.Synchronized?
  }

  lemma AppendSync(events: seq<RoomEvent>, log: seq<Note>, e: RoomEvent)
    requires forall j :: 0 <= j < |events| ==> SyncOk(events, log, j)
    requires SyncOk(events + [e], log, |events|)
    ensures forall j :: 0 <= j < |events + [e]| ==> SyncOk(events + [e], log, j)
  {
    forall j | 0 <= j < |events + [e]| ensures SyncOk(events + [e], log, j) {
      if j < |events| {
        assert SyncOk(events, log, j);
        assert (events + [e])[..j] == events[..j];
      }
    }
  }

  /** Appending keeps a spent attempt spent, short of one more frame of its own placement. */
  lemma AppendSpent(events: seq<RoomEvent>, log: seq<Note>, a: Attempt, e: RoomEvent)
    requires Spent(events, log, a)
    requires e == Outbound(a.binding) ==> !a.terminal
    requires e == Terminal(a.binding, a.number) ==> a.terminal
    ensures Spent(events + [e], log, a)
  {
    forall j | 0 <= j < |events + [e]| && (events + [e])[j] == Terminal(a.binding, a.number)
      ensures a.terminal && Outbound(a.binding) !in (events + [e])[j + 1..]
    {
      if j < |events| {
        assert (events + [e])[j + 1..] == events[j + 1..] + [e];
      } else {
        assert (events + [e])[j + 1..] == [];
      }
    }
  }

  /** An event the room may append at this moment. */
  ghost predicate Appendable(room: Room, log: seq<Note>, e: RoomEvent) {
    && RoomEventOk(log, e)
    && SyncOk(room.events + [e], log, |room.events|)
    && (room.attempt.Some? ==>
          && (e == Outbound(room.attempt.value.binding) ==> !room.attempt.value.terminal)
          && (e == Terminal(room.attempt.value.binding, room.attempt.value.number) ==> room.attempt.value.terminal))
  }

  lemma EmitInv(room: Room, e: RoomEvent, log: seq<Note>)
    requires RoomInv(room, log) && Appendable(room, log, e)
    ensures RoomInv(Emit(room, e), log)
  {
    if |room.events| != ROOM_EVENT_CAPACITY {
      AppendSync(room.events, log, e);
      if room.attempt.Some? {
        AppendSpent(room.events, log, room.attempt.value, e);
      }
    }
  }

  lemma EmitIdleInv(room: Room, e: RoomEvent, log: seq<Note>)
    requires RoomInv(room, log) && Idle(e)
    ensures RoomInv(Emit(room, e), log) && OnlyIdleAdded(room, Emit(room, e))
  {
    assert (room.events + [e])[|room.events|] == e;
    EmitInv(room, e, log);
  }

  lemma {:induction false} EmitAllInv(room: Room, events: seq<RoomEvent>, log: seq<Note>)
    requires RoomInv(room, log) && forall e :: e in events ==> Idle(e)
    ensures RoomInv(EmitAll(room, events), log) && OnlyIdleAdded(room, EmitAll(room, events))
    decreases |events|
  {
    if events != [] {
      assert Idle(events[0]);
      EmitIdleInv(room, events[0], log);
      EmitAllInv(Emit(room, events[0]), events[1..], log);
    }
  }

  /** Only idle events were added. */
  ghost predicate OnlyIdleAdded(room: Room, room': Room) {
    && room' == room.(events := room'.events)
    && forall e :: e in room'.events && !Idle(e) ==> e in room.events
  }

  lemma {:induction false} FramesInv(room: Room, b: Binding, n: nat, log: seq<Note>)
    requires RoomInv(room, log)
    requires n > 0 && AttemptFor(room, b) ==> !room.attempt.value.terminal
    ensures var room' := EmitFrames(room, b, n).0;
            && RoomInv(room', log) && room' == room.(events := room'.events)
            && forall e :: e in room'.events && e != Outbound(b) ==> e in room.events
    decreases n
  {
    if n > 0 && |room.events| != ROOM_EVENT_CAPACITY {
      assert (room.events + [Outbound(b)])[|room.events|] == Outbound(b);
      EmitInv(room, Outbound(b), log);
      FramesInv(room.(events := room.events + [Outbound(b)]), b, n - 1, log);
    }
  }

  lemma DropInv(room: Room, b: Binding, log: seq<Note>)
    requires RoomInv(room, log)
    ensures RoomInv(DropAttempt(room, b), log) && RoomInv(FailAttempt(room, b), log)
  {
    EmitIdleInv(DropAttempt(room, b), RepairFailed(b), log);
  }

  // ---- Room work ----------------------------------------------------------------------------

  lemma StartGrows(room: Room, log: seq<Note>, b: Binding, terminal: bool)
    requires LogInv(log) && RoomInv(room, log) && room.attempt.None? && WasProvisioned(b) in log
    ensures var n := RoomStarted(b, room.starts);
            && Lawful(log, n)
            && RoomInv(room.(attempt := Some(Attempt(b, room.starts, terminal)), starts := room.starts + 1), log + [n])
  {
    var n := RoomStarted(b, room.starts);
    var log' := log + [n];
    forall e | e in room.events ensures RoomEventOk(log', e) {
      assert RoomEventOk(log, e);
    }
    forall c | c in room.commands ensures CommandOk(log', c) {
      assert CommandOk(log, c);
    }
    forall j | 0 <= j < |room.events| ensures SyncOk(room.events, log', j) {
      assert SyncOk(room.events, log, j);
      assert RoomEventOk(log, room.events[j]);
      SyncGrows(room.events, log, n, j);
    }
    FreshNumber(room, log, b);
  }

  /** Nothing in the log or in flight mentions the next attempt number. */
  lemma FreshNumber(room: Room, log: seq<Note>, b: Binding)
    requires LogInv(log) && RoomInv(room, log)
    ensures RoomStarted(b, room.starts) !in log && RoomSynchronized(b, room.starts) !in log
    ensures CarrierFinished(b, room.starts) !in log && Terminal(b, room.starts) !in room.events
  {
    if RoomSynchronized(b, room.starts) in log {
      SynchronizedIsStarted(log, b, room.starts);
    }
    if CarrierFinished(b, room.starts) in log {
      FinishedIsStarted(log, b, room.starts);
    }
    if Terminal(b, room.starts) in room.events {
      TerminalIsStarted(room, log, b, room.starts);
    }
  }

  lemma BeginInv(room: Room, b: Binding, work: Work, log: seq<Note>)
    requires LogInv(log) && RoomInv(room, log) && WasProvisioned(b) in log
    ensures var (room', ok) := BeginAttempt(room, b, work);
            if ok then Lawful(log, RoomStarted(b, room.starts)) && RoomInv(room', log + [RoomStarted(b, room.starts)])
            else RoomInv(room', log)
  {
    if room.attempt.None? {
      FramesInv(room, b, work.frames, log);
      var (room1, ok) := EmitFrames(room, b, work.frames);
      if ok && work.accepted {
        StartGrows(room1, log, b, work.terminal);
        var room2 := room1.(attempt := Some(Attempt(b, room.starts, work.terminal)), starts := room.starts + 1);
        if work.terminal {
          EmitInv(room2, Terminal(b, room.starts), log + [RoomStarted(b, room.starts)]);
        }
      }
    }
  }

  /** A piece of room work and the note it writes keep the invariant. */
  ghost predicate WorkOk(room: Room, notes: seq<Note>, log: seq<Note>) {
    || (notes == [] && RoomInv(room, log))
    || (|notes| == 1 && Lawful(log, notes[0]) && (notes[0].RoomStarted? || notes[0].RoomSynchronized?)
        && RoomInv(room, log + notes))
  }

  lemma DoStartInv(room: Room, b: Binding, work: Work, log: seq<Note>)
    requires LogInv(log) && RoomInv(room, log) && WasProvisioned(b) in log
    ensures WorkOk(DoStart(room, b, work).0, DoStart(room, b, work).1, log)
  {
    DropInv(room, b, log);
    BeginInv(room, b, work, log);
    if room.active && !BeginAttempt(room, b, work).1 {
      DropInv(BeginAttempt(room, b, work).0, b, log);
    }
  }

  lemma TerminalMarkInv(room: Room, log: seq<Note>, terminal: bool)
    requires RoomInv(room, log) && room.attempt.Some?
    ensures RoomInv(room.(attempt := Some(room.attempt.value.(terminal := room.attempt.value.terminal || terminal))),
                    log)
  {
  }

  lemma DoObserveInv(room: Room, b: Binding, work: Work, log: seq<Note>)
    requires RoomInv(room, log)
    ensures RoomInv(DoObserve(room, b, work), log)
  {
    DropInv(room, b, log);
    if room.active && AttemptFor(room, b) {
      var attempt := room.attempt.value;
      var frames := if attempt.terminal then 0 else work.frames;
      FramesInv(room, b, frames, log);
      var (room1, ok) := EmitFrames(room, b, frames);
      DropInv(room1, b, log);
      if ok && work.accepted {
        var terminal := attempt.terminal || work.terminal;
        var room2 := room1.(attempt := Some(attempt.(terminal := terminal)));
        TerminalMarkInv(room1, log, work.terminal);
        EmitAllInv(room2, [OtherEvent, OtherEvent], log);
        if terminal {
          EmitInv(EmitAll(room2, [OtherEvent, OtherEvent]), Terminal(b, attempt.number), log);
        }
      }
    }
  }

  /** Synchronizing over its own close, an attempt leaves no frame in the queue. */
  lemma SyncNote(room: Room, log: seq<Note>, b: Binding, a: nat)
    requires LogInv(log) && RoomInv(room, log)
    requires RoomStarted(b, a) in log && RoomSynchronized(b, a) !in log
    requires Replay(log).carrier == Closed(b, a) ==> Outbound(b) !in room.events
    ensures var n := RoomSynchronized(b, a);
            && Lawful(log, n)
            && (room.attempt.None? ==> RoomInv(Emit(room, Synchronized(b, a)), log + [n]))
  {
    var n := RoomSynchronized(b, a);
    var log' := log + [n];
    forall e | e in room.events ensures RoomEventOk(log', e) {
      assert RoomEventOk(log, e);
    }
    forall c | c in room.commands ensures CommandOk(log', c) {
      assert CommandOk(log, c);
    }
    forall j | 0 <= j < |room.events| ensures SyncOk(room.events, log', j) {
      assert SyncOk(room.events, log, j);
      assert RoomEventOk(log, room.events[j]);
      SyncOverSync(room.events, log, n, j);
    }
    if room.attempt.None? {
      var events := room.events + [Synchronized(b, a)];
      assert events[..|room.events|] == room.events;
      forall y: nat | OwnClose(log', b, a, y) ensures Outbound(b) !in room.events && NoOpenAfter(log', y) {
        assert log'[..|log|] == log;
      }
      assert SyncOk(events, log', |room.events|);
      EmitInv(room, Synchronized(b, a), log');
    }
  }

  lemma SyncOverSync(events: seq<RoomEvent>, log: seq<Note>, n: Note, j: nat)
    requires LogInv(log) && Lawful(log, n) && n.RoomSynchronized?
    requires j < |events| && SyncOk(events, log, j) && RoomEventOk(log, events[j])
    ensures SyncOk(events, log + [n], j)
  {
    if events[j].Synchronized? {
      var b, a := events[j].binding, events[j].attempt;
      ReplayStep(log, n);
      forall y: nat | OwnClose(log + [n], b, a, y)
        ensures Outbound(b) !in events[..j] && (Replay(log + [n]).keyed == Some(b) ==> NoOpenAfter(log + [n], y))
      {
        assert y < |log|;
        OwnCloseStays(log, n, b, a, y);
      }
    }
  }

  lemma OwnCloseIsSpent(log: seq<Note>, b: Binding, a: nat)
    requires LogInv(log) && Replay(log).carrier == Closed(b, a)
    ensures CarrierFinished(b, a) in log
  {
    var f, d := ClosedMeans(log);
    assert log[f] == CarrierFinished(b, a);
  }

  lemma DoConfirmInv(room: Room, b: Binding, work: Work, log: seq<Note>)
    requires LogInv(log) && RoomInv(room, log)
    ensures WorkOk(DoConfirm(room, b, work).0, DoConfirm(room, b, work).1, log)
  {
    DropInv(room, b, log);
    if room.active && AttemptFor(room, b) {
      var attempt := room.attempt.value;
      var room1 := room.(attempt := None);
      DropInv(room1, b, log);
      var quiet := [OtherEvent, OtherEvent, OtherEvent];
      EmitAllInv(room1, quiet, log);
      var room2 := EmitAll(room1, quiet);
      if work.accepted && attempt.terminal && work.synchronized {
        if Replay(log).carrier == Closed(b, attempt.number) {
          OwnCloseIsSpent(log, b, attempt.number);
        }
        SyncNote(room2, log, b, attempt.number);
      } else if work.accepted {
        StartedIsProvisioned(log, b, attempt.number);
        BeginInv(room2, b, work, log);
        if !BeginAttempt(room2, b, work).1 {
          DropInv(BeginAttempt(room2, b, work).0, b, log);
        }
      }
    }
  }

  /** Emptying the room: no attempt, idle events only. */
  lemma QuietInv(room: Room, events: seq<RoomEvent>, log: seq<Note>)
    requires RoomInv(room, log) && room.attempt.None? && forall e :: e in events ==> Idle(e)
    ensures RoomInv(EmitAll(room, events), log) && EmitAll(room, events).attempt.None?
  {
    EmitAllInv(room, events, log);
  }

  lemma DoJoinInv(room: Room, sameRoom: bool, joined: bool, log: seq<Note>)
    requires RoomInv(room, log)
    ensures RoomInv(DoJoin(room, sameRoom, joined), log)
  {
    EmitAllInv(room, [RoomSelected, RoomLink(true)], log);
    var room0 := room.(active := false, attempt := None);
    var quiet := [OtherEvent, OtherEvent, RoomLink(false)];
    QuietInv(room0, quiet, log);
    QuietInv(EmitAll(room0, quiet).(active := true), [OtherEvent, OtherEvent, RoomSelected, RoomLink(true)], log);
    QuietInv(EmitAll(room0, quiet), [RoomLink(false), OtherEvent], log);
  }

  lemma PerformInv(room: Room, c: RoomCommand, work: Work, log: seq<Note>)
    requires LogInv(log) && RoomInv(room, log) && CommandOk(log, c)
    ensures WorkOk(Perform(room, c, work).0, Perform(room, c, work).1, log)
  {
    match c
    case Prepare(b) => EmitIdleInv(room, if room.active && work.accepted then BundlePrepared(b)
                                   else ProvisioningFailed(b), log);
    case Start(b) => DoStartInv(room, b, work, log);
    case Observe(b) => DoObserveInv(room, b, work, log);
    case Confirm(b) => DoConfirmInv(room, b, work, log);
    case Abort(b) => DropInv(room, b, log);
    case Join => DoJoinInv(room, work.sameRoom, work.joined, log);
    case Leave => QuietInv(room.(active := false, attempt := None), [OtherEvent, OtherEvent, RoomLink(false)], log);
    case OtherCommand => EmitIdleInv(room, OtherEvent, log);
  }

  lemma RoomWorksInv(sys: System, work: Work)
    requires SystemInv(sys)
    ensures SystemInv(Next(sys, RoomWorks(work)))
  {
    if sys.room.commands != [] {
      var c := sys.room.commands[0];
      var room := sys.room.(commands := sys.room.commands[1..]);
      var log := sys.board.log;
      assert RoomInv(room, log);
      PerformInv(room, c, work, log);
      var notes := Perform(room, c, work).1;
      if notes == [] {
        assert log + notes == log;
      } else {
        assert notes == [notes[0]];
        NoteInv(sys.board, sys.board.s, notes[0]);
      }
    }
  }

  // ---- Routing --------------------------------------------------------------------------------

  lemma AskInv(sys: System, c: RoomCommand)
    requires SystemInv(sys) && CommandOk(sys.board.log, c)
    ensures SystemInv(Ask(sys, c).0) && SystemInv(HandRoom(sys, c).0)
    ensures HandRoom(sys, c).0.board == sys.board
  {
  }

  /** A board command that writes plain notes only. */
  lemma PlainOrderInv(sys: System, c: Command)
    requires SystemInv(sys) && BoardInv(OnCommand(sys.board, c).0)
    requires PlainGrowth(sys.board.log, OnCommand(sys.board, c).0.log)
    ensures SystemInv(HandBoard(sys, c).0)
  {
    PlainGrows(sys.room, sys.board.log, OnCommand(sys.board, c).0.log);
  }

  lemma FenceInv(sys: System, b: Binding)
    requires SystemInv(sys)
    ensures SystemInv(Fence(sys, b))
  {
    AskInv(sys, Abort(b));
    AbortInv(sys.board, b);
    PlainOrderInv(HandRoom(sys, Abort(b)).0, AbortRepair(b));
  }

  lemma RequestInv(sys: System)
    requires SystemInv(sys)
    ensures SystemInv(RequestProvisioning(sys))
  {
    if sys.boardBinding.Some? {
      AskInv(sys, Prepare(sys.boardBinding.value));
    }
  }

  function Popped(room: Room): Room
    requires room.events != []
  {
    room.(events := room.events[1..])
  }

  lemma PopInv(room: Room, log: seq<Note>)
    requires RoomInv(room, log) && room.events != []
    ensures RoomInv(Popped(room), log)
  {
    var events := room.events;
    forall j | 0 <= j < |events[1..]| ensures SyncOk(events[1..], log, j) {
      assert SyncOk(events, log, j + 1);
      assert forall e :: e in events[1..][..j] ==> e in events[..j + 1];
    }
    if room.attempt.Some? {
      var a := room.attempt.value;
      forall j | 0 <= j < |events[1..]| && events[1..][j] == Terminal(a.binding, a.number)
        ensures a.terminal && Outbound(a.binding) !in events[1..][j + 1..]
      {
        assert events[j + 1] == Terminal(a.binding, a.number);
        assert events[1..][j + 1..] == events[j + 2..];
      }
    }
  }

  /** Behind a frame of its placement no waiting synchronization is over its own close. */
  lemma BehindAFrame(room: Room, log: seq<Note>, b: Binding, j: nat, y: nat)
    requires RoomInv(room, log) && room.events != [] && room.events[0] == Outbound(b)
    requires j < |Popped(room).events| && Popped(room).events[j].Synchronized? && Popped(room).events[j].binding == b
    ensures !OwnClose(log, b, Popped(room).events[j].attempt, y)
  {
    assert SyncOk(room.events, log, j + 1);
    assert room.events[..j + 1][0] == Outbound(b);
  }

  lemma OutboundInv(sys: System, room: Room, b: Binding, a: BoardAnswers)
    requires SystemInv(sys) && RoomInv(room, sys.board.log) && room.events != [] && room.events[0] == Outbound(b)
    requires sys.room == Popped(room)
    ensures SystemInv(HandBoard(sys, SendFrame(b, a.fits, a.sent, a.close)).0)
  {
    SendFrameInv(sys.board, b, a.fits, a.sent, a.close);
    var board := OnSendFrame(sys.board, b, a.fits, a.sent, a.close).0;
    if board.log != sys.board.log {
      forall j: nat, y: nat | j < |sys.room.events| && sys.room.events[j].Synchronized?
          && sys.room.events[j].binding == b
        ensures !OwnClose(sys.board.log, b, sys.room.events[j].attempt, y)
      {
        BehindAFrame(room, sys.board.log, b, j, y);
      }
      assert LawfulAt(board.log, |sys.board.log|);
      assert board.log[..|sys.board.log|] == sys.board.log;
      OpenGrows(sys.room, sys.board.log, b);
    }
  }

  lemma FinishLog(leg: Leg, b: Binding, attempt: nat, answer: CloseAnswer)
    requires BoardInv(leg) && leg.s.close == Some(b) && RoomStarted(b, attempt) in leg.log
    ensures var leg1 := MarkFinished(leg, b, attempt);
            && BoardInv(leg1)
            && (leg1.log == leg.log || (Lawful(leg.log, CarrierFinished(b, attempt))
                                        && leg1.log == leg.log + [CarrierFinished(b, attempt)]))
            && PlainGrowth(leg1.log, OnFinish(leg, b, attempt, answer).0.log)
  {
    MarkInv(leg, b, attempt);
  }

  lemma TerminalInv(sys: System, room: Room, b: Binding, m: nat, a: BoardAnswers)
    requires SystemInv(sys) && RoomInv(room, sys.board.log) && room.events != [] && room.events[0] == Terminal(b, m)
    requires sys.room == Popped(room)
    ensures SystemInv(HandBoard(sys, FinishRepair(b, m, a.close)).0)
  {
    assert RoomEventOk(sys.board.log, Terminal(b, m));
    FinishInv(sys.board, b, m, a.close);
    if sys.board.s.close == Some(b) {
      FinishLog(sys.board, b, m, a.close);
      var leg1 := MarkFinished(sys.board, b, m);
      if leg1.log != sys.board.log {
        FinishGrows(sys.room, sys.board.log, b, m);
      }
      PlainGrows(sys.room, leg1.log, OnFinish(sys.board, b, m, a.close).0.log);
    }
  }

  lemma CompletionInv(sys: System, room: Room, b: Binding, m: nat)
    requires SystemInv(sys) && RoomInv(room, sys.board.log) && room.events != [] && room.events[0] == Synchronized(b, m)
    requires sys.room == Popped(room)
    ensures SystemInv(HandBoard(sys, CompleteRepair(b, m)).0)
  {
    var log := sys.board.log;
    assert RoomEventOk(log, Synchronized(b, m));
    assert SyncOk(room.events, log, 0);
    CompleteInv(sys.board, b, m);
    var board := OnComplete(sys.board, b, m).0;
    if board.log != log {
      assert LawfulAt(board.log, |log|);
      assert board.log[..|log|] == log;
      RoomGrows(sys.room, log, BecameReady(b, m));
    }
  }

  /** Routing the event just taken from the queue, about the announced placement. */
  lemma PlacementInv(sys: System, room: Room, a: BoardAnswers)
    requires SystemInv(sys) && RoomInv(room, sys.board.log) && room.events != [] && sys.room == Popped(room)
    requires NamesPlacement(room.events[0])
    ensures SystemInv(RoutePlacementEvent(sys, room.events[0], a))
  {
    match room.events[0]
    case ProvisioningFailed(b) =>
    case BundlePrepared(b) =>
      BundleInv(sys.board, b, a.receiver, a.digest, a.sent);
      PlainOrderInv(sys, SendBundle(b, a.receiver, a.digest, a.sent));
    case RepairFailed(b) =>
      AbortInv(sys.board, b);
      PlainOrderInv(sys, AbortRepair(b));
    case Outbound(b) =>
      OutboundInv(sys, room, b, a);
      FenceInv(HandBoard(sys, SendFrame(b, a.fits, a.sent, a.close)).0, b);
    case Terminal(b, m) =>
      TerminalInv(sys, room, b, m, a);
      FenceInv(HandBoard(sys, FinishRepair(b, m, a.close)).0, b);
    case Synchronized(b, m) =>
      CompletionInv(sys, room, b, m);
      FenceInv(HandBoard(sys, CompleteRepair(b, m)).0, b);
  }

  lemma RouteRoomInv(sys: System, a: BoardAnswers)
    requires SystemInv(sys) && sys.room.events != []
    ensures SystemInv(Next(sys, RouteFromRoom(a)))
  {
    var e := sys.room.events[0];
    var sys1 := sys.(room := Popped(sys.room));
    PopInv(sys.room, sys.board.log);
    if NamesPlacement(e) {
      PlacementInv(sys1, sys.room, a);
    } else if e.RoomLink? {
      RequestInv(sys1.(roomReady := true, requested := None));
    } else {
      RequestInv(sys1.(requested := None));
    }
  }

  lemma RouteBoardInv(sys: System, e: BoardEvent)
    requires SystemInv(sys) && EventOk(sys.board.log, e)
    ensures SystemInv(RouteBoardEvent(sys, e))
  {
    match e
    case ProvisioningRequired(b) =>
      RequestInv(sys.(boardBinding := Some(b), requested := None, trace := sys.trace + [Announced(b)]));
    case Provisioned(b) => AskOrFenceInv(sys, Start(b), b);
    case RepairInbound(b) => AskOrFenceInv(sys, Observe(b), b);
    case CarrierClosed(b) => AskOrFenceInv(sys, Confirm(b), b);
    case BoardLink(link) =>
      if sys.boardBinding.Some? {
        AskInv(sys, Abort(sys.boardBinding.value));
      }
    case Notice =>
  }

  lemma AskOrFenceInv(sys: System, c: RoomCommand, b: Binding)
    requires SystemInv(sys) && CommandOk(sys.board.log, c)
    ensures SystemInv(OrFence(HandRoom(sys, c), b))
  {
    AskInv(sys, c);
    FenceInv(HandRoom(sys, c).0, b);
  }

  lemma TakeInv(leg: Leg)
    requires BoardInv(leg)
    ensures BoardInv(Take(leg)) && Take(leg).log == leg.log
    ensures Polled(leg).Some? ==> EventOk(leg.log, Polled(leg).value)
  {
  }

  lemma BoardStepInv(sys: System, board: Leg)
    requires SystemInv(sys) && BoardInv(board) && PlainGrowth(sys.board.log, board.log)
    ensures SystemInv(sys.(board := board))
  {
    PlainGrows(sys.room, sys.board.log, board.log);
  }

  lemma NextInv(sys: System, step: Move)
    requires SystemInv(sys) && Allowed(sys, step)
    ensures SystemInv(Next(sys, step))
  {
    match step
    case EditorToBoard(c) =>
      EditorInv(sys.board, c);
      EditorPlain(sys.board, c);
      BoardStepInv(sys, OnCommand(sys.board, c).0);
    case EditorToRoom(c) => AskInv(sys, c);
    case HostToBoard(e) =>
      HostInv(sys.board, e);
      HostPlain(sys.board, e);
      BoardStepInv(sys, OnHost(sys.board, e));
    case DeadlineExpires =>
      FailInv(sys.board);
      BoardStepInv(sys, OnExpired(sys.board));
    case RoomWorks(work) => RoomWorksInv(sys, work);
    case RoomStops =>
      QuietInv(sys.room.(active := false, attempt := None), [RoomLink(false), OtherEvent, OtherEvent, OtherEvent],
               sys.board.log);
    case WorkerDies =>
      QuietInv(sys.room.(alive := false, active := false, attempt := None, commands := []),
               [OtherEvent, OtherEvent, RoomLink(false)], sys.board.log);
    case RoomSpontaneous(e) => EmitIdleInv(sys.room, e, sys.board.log);
    case RouteFromRoom(a) =>
      if sys.room.events != [] {
        RouteRoomInv(sys, a);
      }
    case RouteFromBoard =>
      TakeInv(sys.board);
      BoardStepInv(sys, Take(sys.board));
      if Polled(sys.board).Some? {
        RouteBoardInv(sys.(board := Take(sys.board)), Polled(sys.board).value);
      }
  }

  lemma {:induction false} RunInv(trusted: set<nat>, steps: seq<Move>)
    requires AllowedRun(trusted, steps)
    ensures SystemInv(Reached(trusted, steps))
  {
    if steps != [] {
      var n := |steps| - 1;
      PrefixAllowed(trusted, steps, n);
      RunInv(trusted, steps[..n]);
      assert AllowedAt(trusted, steps, n);
      NextInv(Reached(trusted, steps[..n]), steps[n]);
    }
  }

  // ---- Main result --------------------------------------------------------------------------------

  /**
   Ready is earned, exactly when. In every run of the three legs, whenever the board became
   Ready for a placement, one room attempt for it was synchronized before. Ready was earned
   by that attempt alone (keyed, provisioned, the attempt started, the carrier finished by
   its terminal, that carrier closed, the attempt synchronized, Ready; one session
   throughout, no carrier opened after the finish) exactly when, as the room confirmed the
   close, the carrier the board had closed last was the one this attempt had finished.
   */
  lemma ReadyMeansRepairedIff(trusted: set<nat>, steps: seq<Move>, i: nat) returns (y: nat)
    requires AllowedRun(trusted, steps)
    requires i < |Reached(trusted, steps).board.log| && Reached(trusted, steps).board.log[i].BecameReady?
    ensures var log := Reached(trusted, steps).board.log;
            && y < i && log[y] == RoomSynchronized(log[i].binding, log[i].attempt)
            && (Earned(log, i) <==> Replay(log[..y]).carrier == Closed(log[i].binding, log[i].attempt))
  {
    RunInv(trusted, steps);
    var log := Reached(trusted, steps).board.log;
    y := ReadyAnswers(log, i);
    EarnedIff(log, i, y);
  }
}
