/**
 A repair that succeeds, whatever the number of frames the board sends: from a cold start
 through keying, provisioning, the exchange of frames and the close to an earned Ready.
 */
module RepairSuccess {
  import opened Prelude
  import opened BoardLeg
  import opened RepairLog
  import opened RepairBoard
  import opened RepairProtocol
  import opened RepairCausality
  import opened RepairSwitch

  const Opening: Work := Work(false, false, 1, true, false, false)
  const Observing: Work := Work(false, false, 0, true, false, false)
  const Concluding: Work := Work(false, false, 0, true, true, false)

  /** The room in the middle of its first attempt. */
  function Exchanging(terminal: bool, commands: seq<RoomCommand>, events: seq<RoomEvent>): Room {
    Room(true, true, Some(Attempt(B, 0, terminal)), 1, commands, events)
  }

  function OpenedLog(): seq<Note> {
    [SessionEnded, Keyed(B)] + [WasProvisioned(B)] + [RoomStarted(B, 0)] + [CarrierOpened(B)]
  }

  lemma OpeningStarts(room: Room)
    requires room.active && room.attempt.None? && room.events == [] && room.starts == 0
    ensures DoStart(room, B, Opening)
         == (room.(attempt := Some(Attempt(B, 0, false)), starts := 1, events := [Outbound(B)]), [RoomStarted(B, 0)])
  {
    var room1 := room.(events := [Outbound(B)]);
    assert EmitFrames(room, B, 1) == (room1, true) by {
      assert [] + [Outbound(B)] == [Outbound(B)];
      assert EmitFrames(room1, B, 0) == (room1, true);
    }
  }

  /** From nothing to an open carrier. */
  lemma Opened(trusted: set<nat>) returns (steps: seq<Move>)
    requires 1 in trusted
    ensures Reaches(trusted, steps, Opened7, OpenedLog(), Exchanging(false, [], []))
  {
    var log := [SessionEnded, Keyed(B)];
    steps := Announcing(trusted);
    steps := JoinOther(trusted, steps, Agreed7, log, InitialRoom);
    var room := InitialRoom.(active := true, events := JoinEvents());
    steps := Announce(trusted, steps, Agreed7, log, room);
    steps := Provision(trusted, steps, Agreed7, log, room.(commands := [Prepare(B)], events := []));
    steps := FirstFrame(trusted, steps, log + [WasProvisioned(B)], room.(commands := [Start(B)], events := []));
  }

  lemma FirstFrame(trusted: set<nat>, steps: seq<Move>, log: seq<Note>, room: Room) returns (steps': seq<Move>)
    requires room == Room(true, true, None, 0, [Start(B)], []) && Reaches(trusted, steps, Agreed7, log, room)
    ensures Reaches(trusted, steps', Opened7, log + [RoomStarted(B, 0)] + [CarrierOpened(B)], Exchanging(false, [], []))
  {
    steps' := WorkOne(trusted, steps, Agreed7, log, room, Opening);
    OpeningStarts(room.(commands := []));
    var log1 := log + [RoomStarted(B, 0)];
    FrameOpensCarrier(Reached(trusted, steps').board, Agreed7, log1);
    RouteTaken(trusted, steps', Answers);
    steps' := steps' + [RouteFromRoom(Answers)];
    assert Reached(trusted, steps').room == Exchanging(false, [], []);
    steps' := SkipLink(trusted, steps', Opened7, log1 + [CarrierOpened(B)], Exchanging(false, [], []));
  }

  lemma FrameArrives(leg: Leg, log: seq<Note>)
    requires Leg7(leg, Opened7, log, [])
    ensures FreshAnswer(leg, Wire(RepairFrame(true, NoAnswer)))
    ensures Leg7(OnHost(leg, Wire(RepairFrame(true, NoAnswer))), Opened7, log, [RepairInbound(B)])
  {
  }

  lemma ObserveWorks(terminal: bool)
    ensures var room := Exchanging(false, [], []);
            var work := if terminal then Concluding else Observing;
            DoObserve(room, B, work)
            == Exchanging(terminal, [], [OtherEvent, OtherEvent] + if terminal then [Terminal(B, 0)] else [])
  {
    var room := Exchanging(false, [], []);
    assert EmitFrames(room, B, 0) == (room, true);
    EmitAllFits(Exchanging(terminal, [], []), [OtherEvent, OtherEvent]);
    assert [] + [OtherEvent, OtherEvent] == [OtherEvent, OtherEvent];
    assert [OtherEvent, OtherEvent] + [] == [OtherEvent, OtherEvent];
  }

  const Inbound: HostEvent := Wire(RepairFrame(true, NoAnswer))

  /** How many repair frames the board sent in a run. */
  function FramesSent(steps: seq<Move>): nat {
    if steps == [] then 0
    else FramesSent(steps[..|steps| - 1]) + if steps[|steps| - 1] == HostToBoard(Inbound) then 1 else 0
  }

  lemma SentOne(steps: seq<Move>, m: Move)
    ensures FramesSent(steps + [m]) == FramesSent(steps) + if m == HostToBoard(Inbound) then 1 else 0
  {
    assert (steps + [m])[..|steps|] == steps;
  }

  /** The frame arrives and is handed to the room. */
  lemma FrameReachesRoom(trusted: set<nat>, steps: seq<Move>) returns (steps': seq<Move>)
    requires Reaches(trusted, steps, Opened7, OpenedLog(), Exchanging(false, [], []))
    ensures Reaches(trusted, steps', Opened7, OpenedLog(), Exchanging(false, [Observe(B)], []))
    ensures FramesSent(steps') == FramesSent(steps) + 1
  {
    FrameArrives(Reached(trusted, steps).board, OpenedLog());
    HostSays(trusted, steps, Inbound);
    SentOne(steps, HostToBoard(Inbound));
    steps' := steps + [HostToBoard(Inbound)];
    RouteOne(trusted, steps');
    SentOne(steps', RouteFromBoard);
    steps' := steps' + [RouteFromBoard];
  }

  /** One frame of the board: handed to the room, observed, and the attempt concluded or not. */
  lemma FrameExchanged(trusted: set<nat>, steps: seq<Move>, terminal: bool) returns (steps': seq<Move>)
    requires Reaches(trusted, steps, Opened7, OpenedLog(), Exchanging(false, [], []))
    ensures Reaches(trusted, steps', Opened7, OpenedLog(),
                    Exchanging(terminal, [], if terminal then [Terminal(B, 0)] else []))
    ensures FramesSent(steps') == FramesSent(steps) + 1
  {
    var work := if terminal then Concluding else Observing;
    var steps1 := FrameReachesRoom(trusted, steps);
    var steps2 := WorkOne(trusted, steps1, Opened7, OpenedLog(), Exchanging(false, [Observe(B)], []), work);
    ObserveWorks(terminal);
    SentOne(steps1, RoomWorks(work));
    assert OpenedLog() + [] == OpenedLog();
    steps' := SkipTwo(trusted, steps2, Opened7, OpenedLog(),
                      Exchanging(terminal, [], [OtherEvent, OtherEvent] + if terminal then [Terminal(B, 0)] else []));
  }

  lemma SkipTwo(trusted: set<nat>, steps: seq<Move>, s: Session, log: seq<Note>, room: Room) returns (steps': seq<Move>)
    requires Reaches(trusted, steps, s, log, room)
    requires |room.events| >= 2 && room.events[0] == OtherEvent && room.events[1] == OtherEvent
    ensures Reaches(trusted, steps', s, log, room.(events := room.events[2..]))
    ensures FramesSent(steps') == FramesSent(steps)
  {
    steps' := SkipRoom(trusted, steps);
    SentOne(steps, RouteFromRoom(Answers));
    var steps1 := steps';
    steps' := SkipRoom(trusted, steps1);
    SentOne(steps1, RouteFromRoom(Answers));
  }

  /** At least any number of frames. */
  lemma {:induction false} FramesExchanged(trusted: set<nat>, n: nat) returns (steps: seq<Move>)
    requires 1 in trusted
    ensures Reaches(trusted, steps, Opened7, OpenedLog(), Exchanging(false, [], [])) && FramesSent(steps) >= n
  {
    if n == 0 {
      steps := Opened(trusted);
    } else {
      steps := FramesExchanged(trusted, n - 1);
      steps := FrameExchanged(trusted, steps, false);
    }
  }

  function ClosedLog(): seq<Note> {
    OpenedLog() + [CarrierFinished(B, 0)] + [WasClosed(B)]
  }

  lemma TerminalFinishesQuietly(leg: Leg, log: seq<Note>)
    requires Leg7(leg, Opened7, log, [])
    ensures var (leg', ok) := OnFinish(leg, B, 0, NoAnswer);
            ok && Leg7(leg', Carrying7, log + [CarrierFinished(B, 0)], [])
  {
  }

  /** The room's terminal finishes the carrier, the board confirms the close, and the room is told. */
  lemma Closes(trusted: set<nat>, steps: seq<Move>) returns (steps': seq<Move>)
    requires Reaches(trusted, steps, Opened7, OpenedLog(), Exchanging(true, [], [Terminal(B, 0)]))
    ensures Reaches(trusted, steps', Awaiting7, ClosedLog(), Exchanging(true, [Confirm(B)], []))
    ensures FramesSent(steps') == FramesSent(steps)
  {
    var confirm := Wire(RepairControl(Confirmed));
    TerminalFinishesQuietly(Reached(trusted, steps).board, OpenedLog());
    RouteTaken(trusted, steps, Answers);
    SentOne(steps, RouteFromRoom(Answers));
    var steps1 := steps + [RouteFromRoom(Answers)];
    CloseIsConfirmed(Reached(trusted, steps1).board, OpenedLog() + [CarrierFinished(B, 0)]);
    HostSays(trusted, steps1, confirm);
    SentOne(steps1, HostToBoard(confirm));
    var steps2 := steps1 + [HostToBoard(confirm)];
    RouteOne(trusted, steps2);
    SentOne(steps2, RouteFromBoard);
    steps' := steps2 + [RouteFromBoard];
  }

  lemma CloseSynchronizes()
    ensures DoConfirm(Exchanging(true, [], []), B, Synced)
         == (Room(true, true, None, 1, [], [OtherEvent, OtherEvent, OtherEvent, Synchronized(B, 0)]),
             [RoomSynchronized(B, 0)])
  {
    var three := [OtherEvent, OtherEvent, OtherEvent];
    assert AttemptFor(Exchanging(true, [], []), B);
    EmitAllFits(Room(true, true, None, 1, [], []), three);
    assert [] + three == three;
    assert three + [Synchronized(B, 0)] == [OtherEvent, OtherEvent, OtherEvent, Synchronized(B, 0)];
  }

  /** The room synchronizes the attempt and the board becomes Ready. */
  lemma BecomesReady(trusted: set<nat>, steps: seq<Move>) returns (steps': seq<Move>)
    requires Reaches(trusted, steps, Awaiting7, ClosedLog(), Exchanging(true, [Confirm(B)], []))
    ensures AllowedRun(trusted, steps') && FramesSent(steps') == FramesSent(steps)
    ensures Leg7(Reached(trusted, steps').board, Agreed7, ClosedLog() + [RoomSynchronized(B, 0)] + [BecameReady(B, 0)],
                 [BoardLink(Ready)])
  {
    var log := ClosedLog() + [RoomSynchronized(B, 0)];
    var steps1 := WorkOne(trusted, steps, Awaiting7, ClosedLog(), Exchanging(true, [Confirm(B)], []), Synced);
    CloseSynchronizes();
    SentOne(steps, RoomWorks(Synced));
    var done := [OtherEvent, OtherEvent, OtherEvent, Synchronized(B, 0)];
    var steps2 := SkipTwo(trusted, steps1, Awaiting7, log, Room(true, true, None, 1, [], done));
    assert done[2..] == [OtherEvent, Synchronized(B, 0)];
    var steps3 := SkipRoom(trusted, steps2);
    SentOne(steps2, RouteFromRoom(Answers));
    assert Reached(trusted, steps3).room.events == [Synchronized(B, 0)];
    RouteTaken(trusted, steps3, Answers);
    SentOne(steps3, RouteFromRoom(Answers));
    steps' := steps3 + [RouteFromRoom(Answers)];
  }

  lemma ReadyIsEarned(trusted: set<nat>, steps: seq<Move>)
    requires AllowedRun(trusted, steps)
    requires Reached(trusted, steps).board.log == ClosedLog() + [RoomSynchronized(B, 0)] + [BecameReady(B, 0)]
    ensures Earned(Reached(trusted, steps).board.log, 8)
  {
    var log := Reached(trusted, steps).board.log;
    var y := ReadyMeansRepairedIff(trusted, steps, 8);
    assert y == 7;
    assert log[..7] == ClosedLog();
    ClosedByItself();
  }

  lemma ClosedByItself()
    ensures Replay(ClosedLog()).carrier == Closed(B, 0)
  {
    ReplayStep([SessionEnded, Keyed(B)] + [WasProvisioned(B)] + [RoomStarted(B, 0)], CarrierOpened(B));
    ReplayStep(OpenedLog(), CarrierFinished(B, 0));
    ReplayStep(OpenedLog() + [CarrierFinished(B, 0)], WasClosed(B));
  }

  /**
   A repair can succeed, however many frames the board has to send: there is an allowed run
   from the start in which it sends more than any given number of them and becomes Ready,
   earned, with the session back to rest.
   */
  lemma RepairSucceeds(trusted: set<nat>, n: nat) returns (steps: seq<Move>)
    requires 1 in trusted
    ensures AllowedRun(trusted, steps) && FramesSent(steps) > n
    ensures var board := Reached(trusted, steps).board;
            && board.s == Agreed7 && board.events == [BoardLink(Ready)]
            && |board.log| == 9 && board.log[8] == BecameReady(B, 0) && Earned(board.log, 8)
  {
    steps := FramesExchanged(trusted, n);
    steps := FrameExchanged(trusted, steps, true);
    steps := Closes(trusted, steps);
    steps := BecomesReady(trusted, steps);
    ReadyIsEarned(trusted, steps);
  }
}
