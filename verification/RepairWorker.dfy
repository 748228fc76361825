/**
 What the room worker makes of each repair command: the frames it sends, the attempt it is
 left with, and that every command either carries the attempt on or is reported as failed.
 */
module RepairWorker {
  import opened Prelude
  import opened BoardLeg
  import opened RepairLog
  import opened RepairBoard
  import opened RepairProtocol

  function Frames(b: Binding, n: nat): seq<RoomEvent> {
    seq(n, _ => Outbound(b))
  }

  function Others(n: nat): seq<RoomEvent> {
    seq(n, _ => OtherEvent)
  }

  /** There is room in the event queue for all of these. */
  predicate Holds(room: Room, events: seq<RoomEvent>) {
    |room.events| + |events| <= ROOM_EVENT_CAPACITY
  }

  lemma {:induction false} EmitAllIs(room: Room, events: seq<RoomEvent>)
    requires Holds(room, events)
    ensures EmitAll(room, events) == room.(events := room.events + events)
    decreases |events|
  {
    if events == [] {
      assert room.events + events == room.events;
    } else {
      EmitAllIs(Emit(room, events[0]), events[1..]);
      assert room.events + [events[0]] + events[1..] == room.events + events;
    }
  }

  /** All frames go out, or as many as there was room for and the attempt has failed. */
  lemma {:induction false} FramesGoOut(room: Room, b: Binding, n: nat)
    requires |room.events| <= ROOM_EVENT_CAPACITY
    ensures var (room', ok) := EmitFrames(room, b, n);
            && (ok <==> Holds(room, Frames(b, n)))
            && (ok ==> room' == room.(events := room.events + Frames(b, n)))
            && (!ok ==> |room'.events| == ROOM_EVENT_CAPACITY && room' == room.(events := room'.events))
            && room.events <= room'.events
    decreases n
  {
    if n == 0 {
      assert room.events + Frames(b, 0) == room.events;
    } else if |room.events| < ROOM_EVENT_CAPACITY {
      FramesGoOut(room.(events := room.events + [Outbound(b)]), b, n - 1);
      assert [Outbound(b)] + Frames(b, n - 1) == Frames(b, n);
      assert room.events + [Outbound(b)] + Frames(b, n - 1) == room.events + ([Outbound(b)] + Frames(b, n - 1));
    }
  }

  // ---- What a command does when all goes well -----------------------------------

  predicate IsRepair(c: RoomCommand) {
    c.Start? || c.Observe? || c.Confirm?
  }

  /** The command finds the attempt it needs, and the attempt accepts it. */
  predicate Succeeds(room: Room, c: RoomCommand, work: Work)
    requires IsRepair(c)
  {
    && room.active && work.accepted
    && (if c.Start? then room.attempt.None? else AttemptFor(room, c.binding))
  }

  /** The close of a terminal attempt that ended in agreement. */
  predicate Agrees(room: Room, c: RoomCommand, work: Work)
    requires IsRepair(c) && Succeeds(room, c, work)
  {
    c.Confirm? && room.attempt.value.terminal && work.synchronized
  }

  function TerminalIf(b: Binding, n: nat, terminal: bool): seq<RoomEvent> {
    if terminal then [Terminal(b, n)] else []
  }

  /** Everything a successful command reports, in order. */
  function Reports(room: Room, c: RoomCommand, work: Work): seq<RoomEvent>
    requires IsRepair(c) && Succeeds(room, c, work)
  {
    match c
    case Start(b) => Frames(b, work.frames) + TerminalIf(b, room.starts, work.terminal)
    case Observe(b) =>
      var attempt := room.attempt.value;
      Frames(b, if attempt.terminal then 0 else work.frames)
      + (Others(2) + TerminalIf(b, attempt.number, attempt.terminal || work.terminal))
    case Confirm(b) =>
      if Agrees(room, c, work) then Others(3) + [Synchronized(b, room.attempt.value.number)]
      else Others(3) + (Frames(b, work.frames) + TerminalIf(b, room.starts, work.terminal))
  }

  /** The attempt it leaves: none once synchronized, the same one while observing, else a fresh one. */
  function AttemptAfter(room: Room, c: RoomCommand, work: Work): Option<Attempt>
    requires IsRepair(c) && Succeeds(room, c, work)
  {
    if Agrees(room, c, work) then None
    else if c.Observe? then
      Some(room.attempt.value.(terminal := room.attempt.value.terminal || work.terminal))
    else Some(Attempt(c.binding, room.starts, work.terminal))
  }

  function NotesOf(room: Room, c: RoomCommand, work: Work): seq<Note>
    requires IsRepair(c) && Succeeds(room, c, work)
  {
    if Agrees(room, c, work) then [RoomSynchronized(c.binding, room.attempt.value.number)]
    else if c.Observe? then []
    else [RoomStarted(c.binding, room.starts)]
  }

  /** The room a successful command leaves. */
  predicate CarriesOut(room: Room, c: RoomCommand, work: Work, result: (Room, seq<Note>))
    requires IsRepair(c) && Succeeds(room, c, work)
  {
    && result.0 == room.(attempt := AttemptAfter(room, c, work), events := room.events + Reports(room, c, work),
                         starts := room.starts + if c.Observe? || Agrees(room, c, work) then 0 else 1)
    && result.1 == NotesOf(room, c, work)
  }

  /** The attempt for the placement is gone, and the failure is the last thing reported unless the queue was full. */
  predicate ReportsFailure(room: Room, b: Binding, result: (Room, seq<Note>)) {
    && !AttemptFor(result.0, b) && result.1 == [] && room.events <= result.0.events
    && result.0.events != []
    && (result.0.events[|result.0.events| - 1] == RepairFailed(b) || |result.0.events| == ROOM_EVENT_CAPACITY)
    && (room.attempt.Some? && !AttemptFor(room, b) ==> result.0.attempt == room.attempt)
    && result.0.starts == room.starts && result.0.active == room.active && result.0.commands == room.commands
  }

  lemma FailureIsReported(room: Room, room': Room, b: Binding)
    requires |room.events| <= |room'.events| <= ROOM_EVENT_CAPACITY && room.events <= room'.events
    requires room' == room.(attempt := room'.attempt, events := room'.events)
    requires room'.attempt == room.attempt || (AttemptFor(room, b) && room'.attempt.None?)
    ensures ReportsFailure(room, b, (FailAttempt(room', b), []))
  {
  }

  lemma BeginsIs(room: Room, b: Binding, work: Work)
    requires |room.events| <= ROOM_EVENT_CAPACITY && room.attempt.None?
    ensures var (room', ok) := BeginAttempt(room, b, work);
            && (ok <==> work.accepted && Holds(room, Frames(b, work.frames)))
            && (ok && Holds(room, Frames(b, work.frames) + TerminalIf(b, room.starts, work.terminal)) ==>
                  room' == room.(attempt := Some(Attempt(b, room.starts, work.terminal)), starts := room.starts + 1,
                                 events := room.events
                                           + (Frames(b, work.frames) + TerminalIf(b, room.starts, work.terminal))))
            && (!ok ==> room' == room.(events := room'.events) && room.events <= room'.events
                        && |room'.events| <= ROOM_EVENT_CAPACITY)
  {
    FramesGoOut(room, b, work.frames);
    var frames, tail := Frames(b, work.frames), TerminalIf(b, room.starts, work.terminal);
    assert room.events + frames + tail == room.events + (frames + tail);
    assert room.events + frames + [] == room.events + frames;
  }

  lemma StartSettles(room: Room, b: Binding, work: Work)
    requires |room.events| <= ROOM_EVENT_CAPACITY
    ensures Succeeds(room, Start(b), work) && Holds(room, Reports(room, Start(b), work)) ==>
              CarriesOut(room, Start(b), work, DoStart(room, b, work))
    ensures !Succeeds(room, Start(b), work) || !Holds(room, Frames(b, work.frames)) ==>
              ReportsFailure(room, b, DoStart(room, b, work))
  {
    if room.attempt.None? {
      BeginsIs(room, b, work);
    }
    var room' := if room.active then BeginAttempt(room, b, work).0 else room;
    if DoStart(room, b, work).1 == [] {
      FailureIsReported(room, room', b);
    }
  }

  lemma ObserveSettles(room: Room, b: Binding, work: Work)
    requires |room.events| <= ROOM_EVENT_CAPACITY
    ensures Succeeds(room, Observe(b), work) && Holds(room, Reports(room, Observe(b), work)) ==>
              CarriesOut(room, Observe(b), work, (DoObserve(room, b, work), []))
    ensures !Succeeds(room, Observe(b), work)
            || (!room.attempt.value.terminal && !Holds(room, Frames(b, work.frames))) ==>
              ReportsFailure(room, b, (DoObserve(room, b, work), []))
  {
    FailureIsReported(room, room, b);
    if room.active && AttemptFor(room, b) {
      var attempt := room.attempt.value;
      var n := if attempt.terminal then 0 else work.frames;
      FramesGoOut(room, b, n);
      var (room', ok) := EmitFrames(room, b, n);
      FailureIsReported(room, room', b);
      if work.accepted && Holds(room, Reports(room, Observe(b), work)) {
        ObserveGoesOn(room, room', b, work, n);
      }
    }
  }

  lemma ObserveGoesOn(room: Room, room': Room, b: Binding, work: Work, n: nat)
    requires Succeeds(room, Observe(b), work) && n == if room.attempt.value.terminal then 0 else work.frames
    requires Holds(room, Reports(room, Observe(b), work))
    requires EmitFrames(room, b, n) == (room', true) && room' == room.(events := room.events + Frames(b, n))
    ensures CarriesOut(room, Observe(b), work, (DoObserve(room, b, work), []))
  {
    var attempt := room.attempt.value;
    var terminal := attempt.terminal || work.terminal;
    var room1 := room'.(attempt := Some(attempt.(terminal := terminal)));
    assert Others(2) == [OtherEvent, OtherEvent];
    EmitAllIs(room1, [OtherEvent, OtherEvent]);
    var tail := TerminalIf(b, attempt.number, terminal);
    assert room.events + Frames(b, n) + Others(2) + tail == room.events + (Frames(b, n) + (Others(2) + tail));
    assert room.events + Frames(b, n) + Others(2) + [] == room.events + Frames(b, n) + Others(2);
  }

  lemma ConfirmSettles(room: Room, b: Binding, work: Work)
    requires |room.events| <= ROOM_EVENT_CAPACITY
    ensures Succeeds(room, Confirm(b), work) && Holds(room, Reports(room, Confirm(b), work)) ==>
              CarriesOut(room, Confirm(b), work, DoConfirm(room, b, work))
    ensures !Succeeds(room, Confirm(b), work) ==> ReportsFailure(room, b, DoConfirm(room, b, work))
  {
    FailureIsReported(room, room, b);
    if AttemptFor(room, b) {
      FailureIsReported(room, room.(attempt := None), b);
    }
    if Succeeds(room, Confirm(b), work) && Holds(room, Reports(room, Confirm(b), work)) {
      ConfirmGoesOn(room, b, work);
    }
  }

  lemma ConfirmGoesOn(room: Room, b: Binding, work: Work)
    requires Succeeds(room, Confirm(b), work) && Holds(room, Reports(room, Confirm(b), work))
    ensures CarriesOut(room, Confirm(b), work, DoConfirm(room, b, work))
  {
    var attempt := room.attempt.value;
    var room1 := room.(attempt := None);
    assert Others(3) == [OtherEvent, OtherEvent, OtherEvent];
    EmitAllIs(room1, Others(3));
    var room2 := room1.(events := room.events + Others(3));
    if Agrees(room, Confirm(b), work) {
      var last := [Synchronized(b, attempt.number)];
      assert room.events + Others(3) + last == room.events + (Others(3) + last);
    } else {
      BeginsIs(room2, b, work);
      var more := Frames(b, work.frames) + TerminalIf(b, room.starts, work.terminal);
      assert room.events + Others(3) + more == room.events + (Others(3) + more);
    }
  }

  /**
   Whatever repair command the worker takes, and whatever its attempt answers: if the attempt
   it needs is there and accepts it, it reports exactly its frames and what became of the
   attempt, in order; if not, or if its frames do not fit, the attempt for the placement is
   gone and the failure reported.
   */
  lemma EveryRepairCommandSettles(room: Room, c: RoomCommand, work: Work)
    requires IsRepair(c) && |room.events| <= ROOM_EVENT_CAPACITY
    ensures Succeeds(room, c, work) && Holds(room, Reports(room, c, work)) ==>
              CarriesOut(room, c, work, Perform(room, c, work))
    ensures !Succeeds(room, c, work) ==> ReportsFailure(room, c.binding, Perform(room, c, work))
    ensures Succeeds(room, c, work) && !Holds(room, Frames(c.binding, work.frames))
            && (c.Start? || (c.Observe? && !room.attempt.value.terminal)) ==>
              ReportsFailure(room, c.binding, Perform(room, c, work))
  {
    match c
    case Start(b) => StartSettles(room, b, work);
    case Observe(b) => ObserveSettles(room, b, work);
    case Confirm(b) => ConfirmSettles(room, b, work);
  }

  // ---- The other commands, and the end of a room ------------------------------------

  /** The bundle is prepared if there is a room that can, and its failure reported if not. */
  lemma BundleIsAnswered(room: Room, b: Binding, work: Work)
    requires |room.events| < ROOM_EVENT_CAPACITY
    ensures Perform(room, Prepare(b), work)
         == (room.(events := room.events
                             + [if room.active && work.accepted then BundlePrepared(b) else ProvisioningFailed(b)]), [])
  {
  }

  /** Any other command leaves the repair alone. */
  lemma OthersLeaveTheRepair(room: Room, work: Work)
    requires |room.events| < ROOM_EVENT_CAPACITY
    ensures Perform(room, OtherCommand, work) == (room.(events := room.events + [OtherEvent]), [])
  {
  }

  /** Giving up touches only the placement named. */
  lemma AbortDropsItsOwn(room: Room, b: Binding, work: Work)
    ensures Perform(room, Abort(b), work)
         == (room.(attempt := if AttemptFor(room, b) then None else room.attempt), [])
  {
  }

  /** The last event says how the room's link now stands. */
  predicate LinkIs(room: Room, ready: bool) {
    room.events != [] && room.events[|room.events| - 1] == RoomLink(ready)
  }

  /**
   Leaving, joining another room, the room stopping and the worker dying all end the attempt
   and announce the link; only joining the room one is in leaves the attempt alone.
   */
  lemma RoomChangesEndTheAttempt(room: Room, work: Work)
    requires |room.events| + 8 <= ROOM_EVENT_CAPACITY
    ensures var left := Perform(room, Leave, work).0; left.attempt.None? && !left.active && LinkIs(left, false)
    ensures var joined := Perform(room, Join, work).0;
            if room.active && work.sameRoom
            then joined == room.(events := room.events + [RoomSelected, RoomLink(true)])
            else joined.attempt.None? && joined.active == work.joined && (work.joined ==> LinkIs(joined, true))
    ensures if room.active then DoStop(room).attempt.None? && !DoStop(room).active && DoStop(room).alive == room.alive
            else DoStop(room) == room
    ensures var dead := DoDie(room);
            dead.attempt.None? && !dead.active && !dead.alive && dead.commands == [] && LinkIs(dead, false)
  {
    var gone := room.(active := false, attempt := None);
    var down := [OtherEvent, OtherEvent, RoomLink(false)];
    EmitAllIs(gone, down);
    EmitAllIs(room, [RoomSelected, RoomLink(true)]);
    EmitAllIs(gone.(events := gone.events + down, active := true),
              [OtherEvent, OtherEvent, RoomSelected, RoomLink(true)]);
    EmitAllIs(gone.(events := gone.events + down), [RoomLink(false), OtherEvent]);
    EmitAllIs(gone, [RoomLink(false), OtherEvent, OtherEvent, OtherEvent]);
    EmitAllIs(gone.(alive := false, commands := []), down);
  }

  /** In a ready room that joins, the previous link is taken down before the new one is announced. */
  lemma SwitchAnnounces(room: Room, work: Work)
    requires |room.events| + 8 <= ROOM_EVENT_CAPACITY && !(room.active && work.sameRoom) && work.joined
    ensures Perform(room, Join, work).0.events
         == room.events
            + [OtherEvent, OtherEvent, RoomLink(false), OtherEvent, OtherEvent, RoomSelected, RoomLink(true)]
  {
    var gone := room.(active := false, attempt := None);
    var down, up := [OtherEvent, OtherEvent, RoomLink(false)], [OtherEvent, OtherEvent, RoomSelected, RoomLink(true)];
    EmitAllIs(gone, down);
    EmitAllIs(gone.(events := gone.events + down, active := true), up);
    assert room.events + down + up == room.events + (down + up);
  }
}
