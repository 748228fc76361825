/**
 A run in which Ready is not earned: the room is switched while a finished carrier is
 still closing, and the close reaches the attempt of the new room.
 */
module RepairSwitch {
  import opened Prelude
  import opened BoardLeg
  import opened RepairLog
  import opened RepairBoard
  import opened RepairProtocol
  import opened RepairCausality

  const B: Binding := Binding(1, 1, 7)

  /** The session with board 1 once its profile is agreed. */
  const Agreed7: Session := NoSession.(hello := Some(BoardOne), profile := Some(1), codec := Some(7))

  const Confirmed: CloseAnswer := NoAnswer.(confirmed := true)
  const Answers: BoardAnswers := BoardAnswers(1, 9, true, true, NoAnswer)
  const Joined: Work := Work(false, true, 0, true, false, false)
  const OneFrame: Work := Work(false, false, 1, true, true, false)
  const Synced: Work := Work(false, false, 0, true, true, true)

  /** The board leg, its queue holding `events`. */
  ghost predicate Leg7(leg: Leg, s: Session, log: seq<Note>, events: seq<BoardEvent>) {
    leg.s == s && leg.log == log && leg.events == events && leg.dropped == 0
  }

  /** The configuration between phases: nothing left in the board's queue, the placement announced. */
  ghost predicate At(sys: System, s: Session, log: seq<Note>, room: Room) {
    Leg7(sys.board, s, log, []) && sys.room == room && sys.boardBinding == Some(B)
  }

  ghost predicate Reaches(trusted: set<nat>, steps: seq<Move>, s: Session, log: seq<Note>, room: Room) {
    AllowedRun(trusted, steps) && At(Reached(trusted, steps), s, log, room)
  }

  lemma OneMore(trusted: set<nat>, steps: seq<Move>, m: Move)
    requires AllowedRun(trusted, steps) && Allowed(Reached(trusted, steps), m)
    ensures AllowedRun(trusted, steps + [m]) && Reached(trusted, steps + [m]) == Next(Reached(trusted, steps), m)
  {
    ReachedSnoc(trusted, steps, m);
    var all := steps + [m];
    forall i | 0 <= i < |all| ensures AllowedAt(trusted, all, i) {
      if i < |steps| {
        assert AllowedAt(trusted, steps, i);
        assert all[..i] == steps[..i];
      } else {
        assert all[..i] == steps;
      }
    }
  }

  /** Routing a room event that names no placement and asks for nothing. */
  lemma SkipRoom(trusted: set<nat>, steps: seq<Move>) returns (steps': seq<Move>)
    requires AllowedRun(trusted, steps)
    requires var room := Reached(trusted, steps).room; room.events != [] && room.events[0] == OtherEvent
    ensures var sys := Reached(trusted, steps);
            AllowedRun(trusted, steps') && Reached(trusted, steps') == sys.(room := Popped(sys.room))
    ensures steps' == steps + [RouteFromRoom(Answers)]
  {
    steps' := steps + [RouteFromRoom(Answers)];
    OneMore(trusted, steps, RouteFromRoom(Answers));
  }

  function JoinEvents(): seq<RoomEvent> {
    [OtherEvent, OtherEvent, RoomLink(false), OtherEvent, OtherEvent, RoomSelected, RoomLink(true)]
  }

  lemma {:induction false} EmitAllFits(room: Room, events: seq<RoomEvent>)
    requires |room.events| + |events| <= ROOM_EVENT_CAPACITY
    ensures EmitAll(room, events) == room.(events := room.events + events)
    decreases |events|
  {
    if events == [] {
      assert room.events + events == room.events;
    } else {
      EmitAllFits(Emit(room, events[0]), events[1..]);
      assert room.events + [events[0]] + events[1..] == room.events + events;
    }
  }

  lemma JoinRoom(room: Room)
    requires room.events == []
    ensures DoJoin(room, false, true) == room.(active := true, attempt := None, events := JoinEvents())
  {
    var room0 := room.(active := false, attempt := None);
    var first, second := [OtherEvent, OtherEvent, RoomLink(false)],
        [OtherEvent, OtherEvent, RoomSelected, RoomLink(true)];
    EmitAllFits(room0, first);
    assert [] + first == first;
    EmitAllFits(room0.(active := true, events := first), second);
    assert first + second == JoinEvents();
  }

  /** The worker takes the command at the head of its queue. */
  lemma WorkOne(trusted: set<nat>, steps: seq<Move>, s: Session, log: seq<Note>, room: Room, work: Work)
    returns (steps': seq<Move>)
    requires Reaches(trusted, steps, s, log, room) && room.commands != []
    ensures var (room', notes) := Perform(room.(commands := room.commands[1..]), room.commands[0], work);
            Reaches(trusted, steps', s, log + notes, room')
    ensures steps' == steps + [RoomWorks(work)]
  {
    OneMore(trusted, steps, RoomWorks(work));
    steps' := steps + [RoomWorks(work)];
  }

  /** The editor joins a room, and the worker opens it. */
  lemma JoinOther(trusted: set<nat>, steps: seq<Move>, s: Session, log: seq<Note>, room: Room)
    returns (steps': seq<Move>)
    requires Reaches(trusted, steps, s, log, room) && room.alive && room.commands == [] && room.events == []
    ensures Reaches(trusted, steps', s, log, room.(active := true, attempt := None, events := JoinEvents()))
  {
    OneMore(trusted, steps, EditorToRoom(Join));
    var steps1 := steps + [EditorToRoom(Join)];
    assert At(Reached(trusted, steps1), s, log, room.(commands := [Join]));
    steps' := WorkOne(trusted, steps1, s, log, room.(commands := [Join]), Joined);
    JoinRoom(room);
    assert log + [] == log;
  }

  /** The new room's announcement is routed, and the composite asks it to provision the board. */
  lemma Announce(trusted: set<nat>, steps: seq<Move>, s: Session, log: seq<Note>, room: Room)
    returns (steps': seq<Move>)
    requires Reaches(trusted, steps, s, log, room) && room.alive && room.commands == [] && room.events == JoinEvents()
    ensures Reaches(trusted, steps', s, log, room.(commands := [Prepare(B)], events := []))
  {
    var e := JoinEvents();
    steps' := SkipRoom(trusted, steps);
    steps' := SkipRoom(trusted, steps');
    assert Reached(trusted, steps').room.events == e[2..];
    steps' := Down(trusted, steps', s, log, room.(events := e[2..]));
    steps' := SkipRoom(trusted, steps');
    steps' := SkipRoom(trusted, steps');
    assert Reached(trusted, steps').room.events == [RoomSelected, RoomLink(true)];
    steps' := SelectedThenReady(trusted, steps', s, log, room.(events := [RoomSelected, RoomLink(true)]));
  }

  lemma Down(trusted: set<nat>, steps: seq<Move>, s: Session, log: seq<Note>, room: Room) returns (steps': seq<Move>)
    requires Reaches(trusted, steps, s, log, room) && room.events != [] && room.events[0] == RoomLink(false)
    ensures Reaches(trusted, steps', s, log, Popped(room))
    ensures !Reached(trusted, steps').roomReady
  {
    steps' := steps + [RouteFromRoom(Answers)];
    OneMore(trusted, steps, RouteFromRoom(Answers));
  }

  lemma SelectedThenReady(trusted: set<nat>, steps: seq<Move>, s: Session, log: seq<Note>, room: Room)
    returns (steps': seq<Move>)
    requires Reaches(trusted, steps, s, log, room) && room.alive && room.commands == []
             && !Reached(trusted, steps).roomReady
    requires room.events == [RoomSelected, RoomLink(true)]
    ensures Reaches(trusted, steps', s, log, room.(commands := [Prepare(B)], events := []))
  {
    OneMore(trusted, steps, RouteFromRoom(Answers));
    var steps1 := steps + [RouteFromRoom(Answers)];
    assert At(Reached(trusted, steps1), s, log, room.(events := [RoomLink(true)]));
    OneMore(trusted, steps1, RouteFromRoom(Answers));
    steps' := steps1 + [RouteFromRoom(Answers)];
  }

  /** A platform event while the placement stays announced; the board's new events are routed afterwards. */
  lemma HostSays(trusted: set<nat>, steps: seq<Move>, e: HostEvent)
    requires AllowedRun(trusted, steps) && FreshAnswer(Reached(trusted, steps).board, e)
    ensures AllowedRun(trusted, steps + [HostToBoard(e)])
    ensures Reached(trusted, steps + [HostToBoard(e)])
         == Reached(trusted, steps).(board := OnHost(Reached(trusted, steps).board, e))
  {
    OneMore(trusted, steps, HostToBoard(e));
  }

  lemma RouteOne(trusted: set<nat>, steps: seq<Move>)
    requires AllowedRun(trusted, steps) && Polled(Reached(trusted, steps).board).Some?
    ensures AllowedRun(trusted, steps + [RouteFromBoard])
    ensures var sys := Reached(trusted, steps);
            Reached(trusted, steps + [RouteFromBoard]) == RouteBoardEvent(sys.(board := Take(sys.board)),
                    Polled(sys.board).value)
  {
    OneMore(trusted, steps, RouteFromBoard);
  }

  /** Routing a room event whose command the board leg takes. */
  lemma RouteTaken(trusted: set<nat>, steps: seq<Move>, a: BoardAnswers)
    requires AllowedRun(trusted, steps)
    requires var sys := Reached(trusted, steps);
             && sys.room.events != [] && NamesPlacement(sys.room.events[0]) && !sys.room.events[0].ProvisioningFailed?
             && sys.boardBinding == Some(sys.room.events[0].binding)
             && OnCommand(sys.board, Translate(sys.room.events[0], a)).1
    ensures AllowedRun(trusted, steps + [RouteFromRoom(a)])
    ensures var sys, sys' := Reached(trusted, steps), Reached(trusted, steps + [RouteFromRoom(a)]);
            && sys'.board == OnCommand(sys.board, Translate(sys.room.events[0], a)).0
            && sys'.room == Popped(sys.room) && sys'.boardBinding == sys.boardBinding
  {
    OneMore(trusted, steps, RouteFromRoom(a));
  }

  /** The room prepares the bundle, the board acknowledges it, and the room is asked to start. */
  lemma Provision(trusted: set<nat>, steps: seq<Move>, s: Session, log: seq<Note>, room: Room)
    returns (steps': seq<Move>)
    requires Reaches(trusted, steps, s, log, room) && room.alive && room.active
    requires room.commands == [Prepare(B)] && room.events == []
    requires BindingOf(s) == Some(B) && s.profile.Some? && s.provisioning.None? && !s.pending
    ensures Reaches(trusted, steps', s, log + [WasProvisioned(B)], room.(commands := [Start(B)], events := []))
  {
    var room1 := room.(commands := [], events := [BundlePrepared(B)]);
    var steps1 := WorkOne(trusted, steps, s, log, room, Joined);
    assert log + [] == log;
    assert At(Reached(trusted, steps1), s, log, room1);
    BundleIsSent(Reached(trusted, steps1).board, s, log);
    RouteTaken(trusted, steps1, Answers);
    var steps2 := steps1 + [RouteFromRoom(Answers)];
    steps' := Acknowledge(trusted, steps2, s, log, room.(commands := [], events := []));
  }

  lemma BundleIsSent(leg: Leg, s: Session, log: seq<Note>)
    requires Leg7(leg, s, log, []) && BindingOf(s) == Some(B) && s.profile.Some? && s.provisioning.None?
    ensures var (leg', ok) := OnBundle(leg, B, 1, 9, true);
            ok && Leg7(leg', s.(provisioning := Some((B, 9))), log, [])
  {
  }

  lemma BundleIsAcknowledged(leg: Leg, s: Session, log: seq<Note>)
    requires Leg7(leg, s.(provisioning := Some((B, 9))), log, []) && BindingOf(s) == Some(B)
    requires s.provisioning.None? && !s.pending
    ensures FreshAnswer(leg, Wire(CapabilityReady(9)))
    ensures Leg7(OnHost(leg, Wire(CapabilityReady(9))), s, log + [WasProvisioned(B)],
                 [Provisioned(B), BoardLink(Repairing)])
  {
  }

  lemma Acknowledge(trusted: set<nat>, steps: seq<Move>, s: Session, log: seq<Note>, room: Room)
    returns (steps': seq<Move>)
    requires Reaches(trusted, steps, s.(provisioning := Some((B, 9))), log, room) && room.alive && room.commands == []
    requires BindingOf(s) == Some(B) && s.provisioning.None? && !s.pending
    ensures Reaches(trusted, steps', s, log + [WasProvisioned(B)], room.(commands := [Start(B)]))
  {
    BundleIsAcknowledged(Reached(trusted, steps).board, s, log);
    HostSays(trusted, steps, Wire(CapabilityReady(9)));
    var steps1 := steps + [HostToBoard(Wire(CapabilityReady(9)))];
    RouteOne(trusted, steps1);
    var steps2 := steps1 + [RouteFromBoard];
    assert Leg7(Reached(trusted, steps2).board, s, log + [WasProvisioned(B)], [BoardLink(Repairing)]);
    steps' := SkipLink(trusted, steps2, s, log + [WasProvisioned(B)], room.(commands := [Start(B)]));
  }

  /** A repairing link event is routed without effect. */
  lemma SkipLink(trusted: set<nat>, steps: seq<Move>, s: Session, log: seq<Note>, room: Room)
    returns (steps': seq<Move>)
    requires AllowedRun(trusted, steps)
    requires var sys := Reached(trusted, steps);
             Leg7(sys.board, s, log, [BoardLink(Repairing)]) && sys.room == room && sys.boardBinding == Some(B)
    ensures Reaches(trusted, steps', s, log, room)
  {
    RouteOne(trusted, steps);
    steps' := steps + [RouteFromBoard];
  }

  /** A new attempt sends one frame and is terminal at once. */
  lemma StartOne(trusted: set<nat>, steps: seq<Move>, s: Session, log: seq<Note>, room: Room)
    returns (steps': seq<Move>)
    requires Reaches(trusted, steps, s, log, room) && room.active && room.attempt.None?
    requires room.commands != [] && room.commands[0] == Start(B) && room.events == []
    ensures Reaches(trusted, steps', s, log + [RoomStarted(B, room.starts)],
                    room.(attempt := Some(Attempt(B, room.starts, true)), starts := room.starts + 1,
                          commands := room.commands[1..], events := [Outbound(B), Terminal(B, room.starts)]))
  {
    steps' := WorkOne(trusted, steps, s, log, room, OneFrame);
    OneFrameStarts(room.(commands := room.commands[1..]));
  }

  lemma OneFrameStarts(room: Room)
    requires room.active && room.attempt.None? && room.events == []
    ensures DoStart(room, B, OneFrame) ==
            (room.(attempt := Some(Attempt(B, room.starts, true)), starts := room.starts + 1,
                   events := [Outbound(B), Terminal(B, room.starts)]), [RoomStarted(B, room.starts)])
  {
    var room1 := room.(events := [Outbound(B)]);
    assert EmitFrames(room, B, 1) == (room1, true) by {
      assert [] + [Outbound(B)] == [Outbound(B)];
      assert EmitFrames(room1, B, 0) == (room1, true);
    }
    assert [Outbound(B)] + [Terminal(B, room.starts)] == [Outbound(B), Terminal(B, room.starts)];
  }

  const Opened7: Session := Agreed7.(close := Some(B), deadline := true)
  const Carrying7: Session := Opened7.(finished := true)
  const Awaiting7: Session := Agreed7.(awaiting := Some(B), deadline := true)

  lemma FrameOpensCarrier(leg: Leg, s: Session, log: seq<Note>)
    requires Leg7(leg, s, log, []) && (s == Agreed7 || s == Awaiting7)
    ensures var (leg', ok) := OnSendFrame(leg, B, true, true, NoAnswer);
            ok && Leg7(leg', Opened7, log + [CarrierOpened(B)], [BoardLink(Repairing)])
  {
  }

  lemma TerminalFinishes(leg: Leg, log: seq<Note>, a: nat)
    requires Leg7(leg, Opened7, log, [BoardLink(Repairing)])
    ensures var (leg', ok) := OnFinish(leg, B, a, NoAnswer);
            ok && Leg7(leg', Carrying7, log + [CarrierFinished(B, a)], [BoardLink(Repairing)])
  {
  }

  lemma TerminalFinishesAndCloses(leg: Leg, log: seq<Note>, a: nat)
    requires Leg7(leg, Opened7, log, [BoardLink(Repairing)])
    ensures var (leg', ok) := OnFinish(leg, B, a, Confirmed);
            ok && leg'.s == Awaiting7 && leg'.log == log + [CarrierFinished(B, a)] + [WasClosed(B)]
  {
  }

  lemma CloseIsConfirmed(leg: Leg, log: seq<Note>)
    requires Leg7(leg, Carrying7, log, [])
    ensures FreshAnswer(leg, Wire(RepairControl(Confirmed)))
    ensures Leg7(OnHost(leg, Wire(RepairControl(Confirmed))), Awaiting7, log + [WasClosed(B)], [CarrierClosed(B)])
  {
  }

  /** The frame opens a carrier and the terminal finishes it; the board has not confirmed yet. */
  lemma OpenAndFinish(trusted: set<nat>, steps: seq<Move>, log: seq<Note>, room: Room, a: nat)
    returns (steps': seq<Move>)
    requires Reaches(trusted, steps, Agreed7, log, room) && room.events == [Outbound(B), Terminal(B, a)]
    ensures Reaches(trusted, steps', Carrying7, log + [CarrierOpened(B)] + [CarrierFinished(B, a)], room.(events := []))
  {
    FrameOpensCarrier(Reached(trusted, steps).board, Agreed7, log);
    RouteTaken(trusted, steps, Answers);
    var steps1 := steps + [RouteFromRoom(Answers)];
    assert Reached(trusted, steps1).room.events == [Terminal(B, a)];
    TerminalFinishes(Reached(trusted, steps1).board, log + [CarrierOpened(B)], a);
    RouteTaken(trusted, steps1, Answers);
    var steps2 := steps1 + [RouteFromRoom(Answers)];
    assert Reached(trusted, steps2).room == room.(events := []);
    steps' := SkipLink(trusted, steps2, Carrying7, log + [CarrierOpened(B)] + [CarrierFinished(B, a)],
                       room.(events := []));
  }

  /** The board confirms the close, which is queued for the room behind the start. */
  lemma CloseBehindStart(trusted: set<nat>, steps: seq<Move>, log: seq<Note>, room: Room) returns (steps': seq<Move>)
    requires Reaches(trusted, steps, Carrying7, log, room) && room.alive && room.commands == [Start(B)]
    ensures Reaches(trusted, steps', Awaiting7, log + [WasClosed(B)], room.(commands := [Start(B), Confirm(B)]))
  {
    CloseIsConfirmed(Reached(trusted, steps).board, log);
    HostSays(trusted, steps, Wire(RepairControl(Confirmed)));
    var steps1 := steps + [HostToBoard(Wire(RepairControl(Confirmed)))];
    RouteOne(trusted, steps1);
    steps' := steps1 + [RouteFromBoard];
  }

  /** The close reaches the new attempt, which is terminal and is synchronized. */
  lemma ConfirmNew(trusted: set<nat>, steps: seq<Move>, log: seq<Note>, room: Room, a: nat) returns (steps': seq<Move>)
    requires Reaches(trusted, steps, Awaiting7, log, room) && room.active && room.attempt == Some(Attempt(B, a, true))
    requires room.commands == [Confirm(B)] && room.events == [Outbound(B), Terminal(B, a)]
    ensures Reaches(trusted, steps', Awaiting7, log + [RoomSynchronized(B, a)],
                    room.(attempt := None, commands := [],
                          events := [Outbound(B), Terminal(B, a), OtherEvent, OtherEvent, OtherEvent,
                                     Synchronized(B, a)]))
  {
    steps' := WorkOne(trusted, steps, Awaiting7, log, room, Synced);
    var room1 := room.(attempt := None, commands := []);
    EmitAllFits(room1, [OtherEvent, OtherEvent, OtherEvent]);
  }

  /** The new attempt's frame opens a second carrier; its terminal finishes it, and the board confirms at once. */
  lemma SecondCarrier(trusted: set<nat>, steps: seq<Move>, log: seq<Note>, room: Room, a: nat)
    returns (steps': seq<Move>)
    requires Reaches(trusted, steps, Awaiting7, log, room)
    requires room.events == [Outbound(B), Terminal(B, a), OtherEvent, OtherEvent, OtherEvent, Synchronized(B, a)]
    ensures AllowedRun(trusted, steps')
    ensures var sys := Reached(trusted, steps');
            && sys.board.s == Awaiting7 && sys.boardBinding == Some(B)
            && sys.board.log == log + [CarrierOpened(B)] + [CarrierFinished(B, a)] + [WasClosed(B)]
            && sys.room.events == [OtherEvent, OtherEvent, OtherEvent, Synchronized(B, a)]
  {
    FrameOpensCarrier(Reached(trusted, steps).board, Awaiting7, log);
    RouteTaken(trusted, steps, Answers);
    var steps1 := steps + [RouteFromRoom(Answers)];
    assert Reached(trusted, steps1).room.events == [Terminal(B, a), OtherEvent, OtherEvent, OtherEvent,
                                                    Synchronized(B, a)];
    var sure := Answers.(close := Confirmed);
    TerminalFinishesAndCloses(Reached(trusted, steps1).board, log + [CarrierOpened(B)], a);
    RouteTaken(trusted, steps1, sure);
    steps' := steps1 + [RouteFromRoom(sure)];
  }

  lemma CompletionTaken(leg: Leg, a: nat)
    requires leg.s == Awaiting7
    ensures OnComplete(leg, B, a).1 && OnComplete(leg, B, a).0.log == leg.log + [BecameReady(B, a)]
  {
  }

  lemma ReadyAnyway(trusted: set<nat>, steps: seq<Move>, log: seq<Note>, a: nat) returns (steps': seq<Move>)
    requires AllowedRun(trusted, steps)
    requires var sys := Reached(trusted, steps);
             && sys.board.s == Awaiting7 && sys.board.log == log && sys.boardBinding == Some(B)
             && sys.room.events == [OtherEvent, OtherEvent, OtherEvent, Synchronized(B, a)]
    ensures AllowedRun(trusted, steps') && Reached(trusted, steps').board.log == log + [BecameReady(B, a)]
  {
    steps' := SkipRoom(trusted, steps);
    steps' := SkipRoom(trusted, steps');
    steps' := SkipRoom(trusted, steps');
    var sys := Reached(trusted, steps');
    assert sys.room.events == [Synchronized(B, a)];
    CompletionTaken(sys.board, a);
    RouteTaken(trusted, steps', Answers);
    steps' := steps' + [RouteFromRoom(Answers)];
  }

  // ---- From the beginning -----------------------------------------------------------------

  lemma LegKeyed(leg: Leg)
    requires leg == InitialLeg(leg.trusted) && 1 in leg.trusted
    ensures var leg1 := OnHost(leg, Connected(true, Sent));
            var leg2 := OnHost(leg1, Info(Some(BoardOne), Sent));
            && FreshAnswer(leg, Connected(true, Sent)) && FreshAnswer(leg1, Info(Some(BoardOne), Sent))
            && FreshAnswer(leg2, Wire(Answer(true, 7, true)))
            && Leg7(leg2, NoSession.(hello := Some(BoardOne), pending := true), [SessionEnded],
                    [BoardLink(Authenticating), BoardLink(Authenticating)])
  {
  }

  lemma LegAgreed(leg: Leg)
    requires Leg7(leg, NoSession.(hello := Some(BoardOne), pending := true), [SessionEnded],
                  [BoardLink(Authenticating), BoardLink(Authenticating)])
    ensures var leg1 := OnHost(leg, Wire(Answer(true, 7, true)));
            && FreshAnswer(leg1, Wire(Profile(1, Agreed)))
            && Leg7(OnHost(leg1, Wire(Profile(1, Agreed))), Agreed7, [SessionEnded, Keyed(B)],
                    [BoardLink(Authenticating), BoardLink(Authenticating), BoardLink(Repairing), Notice,
                     ProvisioningRequired(B)])
  {
  }

  /** The board is keyed and its profile agreed; nothing has been routed. */
  lemma Keying(trusted: set<nat>) returns (steps: seq<Move>)
    requires 1 in trusted
    ensures AllowedRun(trusted, steps)
    ensures var sys := Reached(trusted, steps);
            && sys == InitialSystem(trusted).(board := sys.board)
            && Leg7(sys.board, Agreed7, [SessionEnded, Keyed(B)],
                    [BoardLink(Authenticating), BoardLink(Authenticating), BoardLink(Repairing), Notice,
                     ProvisioningRequired(B)])
  {
    steps := [];
    LegKeyed(InitialLeg(trusted));
    HostSays(trusted, steps, Connected(true, Sent));
    steps := steps + [HostToBoard(Connected(true, Sent))];
    HostSays(trusted, steps, Info(Some(BoardOne), Sent));
    steps := steps + [HostToBoard(Info(Some(BoardOne), Sent))];
    LegAgreed(Reached(trusted, steps).board);
    HostSays(trusted, steps, Wire(Answer(true, 7, true)));
    steps := steps + [HostToBoard(Wire(Answer(true, 7, true)))];
    HostSays(trusted, steps, Wire(Profile(1, Agreed)));
    steps := steps + [HostToBoard(Wire(Profile(1, Agreed)))];
  }

  /** The composite learns of the placement. */
  lemma Announcing(trusted: set<nat>) returns (steps: seq<Move>)
    requires 1 in trusted
    ensures Reaches(trusted, steps, Agreed7, [SessionEnded, Keyed(B)], InitialRoom)
  {
    steps := Keying(trusted);
    RouteOne(trusted, steps);
    steps := steps + [RouteFromBoard];
    assert Reached(trusted, steps).board.events
        == [BoardLink(Authenticating), BoardLink(Repairing), Notice, ProvisioningRequired(B)];
    RouteOne(trusted, steps);
    steps := steps + [RouteFromBoard];
    assert Reached(trusted, steps).board.events == [BoardLink(Repairing), Notice, ProvisioningRequired(B)];
    RouteOne(trusted, steps);
    steps := steps + [RouteFromBoard];
    assert Reached(trusted, steps).board.events == [Notice, ProvisioningRequired(B)];
    RouteOne(trusted, steps);
    steps := steps + [RouteFromBoard];
    assert Reached(trusted, steps).board.events == [ProvisioningRequired(B)];
    RouteOne(trusted, steps);
    steps := steps + [RouteFromBoard];
  }

  function FirstLog(): seq<Note> {
    [SessionEnded, Keyed(B)] + [WasProvisioned(B)] + [RoomStarted(B, 0)] + [CarrierOpened(B)] + [CarrierFinished(B, 0)]
  }

  /** In the first room an attempt opens the carrier and finishes it. */
  lemma FirstRoom(trusted: set<nat>) returns (steps: seq<Move>)
    requires 1 in trusted
    ensures Reaches(trusted, steps, Carrying7, FirstLog(), Room(true, true, Some(Attempt(B, 0, true)), 1, [], []))
  {
    var log := [SessionEnded, Keyed(B)];
    steps := Announcing(trusted);
    steps := JoinOther(trusted, steps, Agreed7, log, InitialRoom);
    var room := InitialRoom.(active := true, events := JoinEvents());
    steps := Announce(trusted, steps, Agreed7, log, room);
    steps := Provision(trusted, steps, Agreed7, log, room.(commands := [Prepare(B)], events := []));
    steps := StartOne(trusted, steps, Agreed7, log + [WasProvisioned(B)], room.(commands := [Start(B)], events := []));
    var room1 := Room(true, true, Some(Attempt(B, 0, true)), 1, [], [Outbound(B), Terminal(B, 0)]);
    steps := OpenAndFinish(trusted, steps, log + [WasProvisioned(B)] + [RoomStarted(B, 0)], room1, 0);
  }

  function SecondLog(): seq<Note> {
    FirstLog() + [WasProvisioned(B)] + [WasClosed(B)] + [RoomStarted(B, 1)] + [RoomSynchronized(B, 1)]
  }

  /** The second room provisions the board again; the first room's close reaches its attempt. */
  lemma SecondRoom(trusted: set<nat>) returns (steps: seq<Move>)
    requires 1 in trusted
    ensures Reaches(trusted, steps, Awaiting7, SecondLog(),
                    Room(true, true, None, 2, [],
                         [Outbound(B), Terminal(B, 1), OtherEvent, OtherEvent, OtherEvent, Synchronized(B, 1)]))
  {
    var log := FirstLog();
    steps := FirstRoom(trusted);
    var room := Room(true, true, Some(Attempt(B, 0, true)), 1, [], []);
    steps := JoinOther(trusted, steps, Carrying7, log, room);
    room := Room(true, true, None, 1, [], JoinEvents());
    steps := Announce(trusted, steps, Carrying7, log, room);
    steps := Provision(trusted, steps, Carrying7, log, room.(commands := [Prepare(B)], events := []));
    log := log + [WasProvisioned(B)];
    room := Room(true, true, None, 1, [Start(B)], []);
    steps := CloseBehindStart(trusted, steps, log, room);
    log := log + [WasClosed(B)];
    steps := StartOne(trusted, steps, Awaiting7, log, room.(commands := [Start(B), Confirm(B)]));
    log := log + [RoomStarted(B, 1)];
    room := Room(true, true, Some(Attempt(B, 1, true)), 2, [Confirm(B)], [Outbound(B), Terminal(B, 1)]);
    steps := ConfirmNew(trusted, steps, log, room, 1);
  }

  /**
   A room switch inside one session can announce Ready unearned: an allowed run at whose end
   the board is Ready for an attempt that was synchronized over the close of another.
   */
  lemma RoomSwitchBreaksReady(trusted: set<nat>) returns (steps: seq<Move>)
    requires 1 in trusted
    ensures AllowedRun(trusted, steps)
    ensures var log := Reached(trusted, steps).board.log;
            log != [] && log[|log| - 1] == BecameReady(B, 1) && !Earned(log, |log| - 1)
  {
    steps := SecondRoom(trusted);
    var room := Reached(trusted, steps).room;
    steps := SecondCarrier(trusted, steps, SecondLog(), room, 1);
    steps := ReadyAnyway(trusted, steps, LastLog(), 1);
    RunInv(trusted, steps);
    UnearnedEnd(LastLog() + [BecameReady(B, 1)]);
  }

  function LastLog(): seq<Note> {
    SecondLog() + [CarrierOpened(B)] + [CarrierFinished(B, 1)] + [WasClosed(B)]
  }

  lemma UnearnedEnd(log: seq<Note>)
    requires LogInv(log) && log == LastLog() + [BecameReady(B, 1)]
    ensures !Earned(log, |log| - 1)
  {
    NotOverOwnClose();
    assert log[9] == SecondLog()[9] && log[..9] == SecondLog()[..9];
    EarnedIff(log, |log| - 1, 9);
  }

  /** When the second room synchronized, the carrier closed last was the first room's. */
  lemma NotOverOwnClose()
    ensures |SecondLog()| == 10 && SecondLog()[9] == RoomSynchronized(B, 1)
    ensures Replay(SecondLog()[..9]).carrier == Closed(B, 0)
  {
    var log0 := [SessionEnded, Keyed(B)];
    ReplayStep([SessionEnded], Keyed(B));
    assert [SessionEnded] + [Keyed(B)] == log0;
    ReplayStep(log0, WasProvisioned(B));
    var log1 := log0 + [WasProvisioned(B)];
    ReplayStep(log1, RoomStarted(B, 0));
    var log2 := log1 + [RoomStarted(B, 0)];
    ReplayStep(log2, CarrierOpened(B));
    var log3 := log2 + [CarrierOpened(B)];
    ReplayStep(log3, CarrierFinished(B, 0));
    var log4 := log3 + [CarrierFinished(B, 0)];
    assert log4 == FirstLog();
    ReplayStep(log4, WasProvisioned(B));
    ReplayStep(log4 + [WasProvisioned(B)], WasClosed(B));
    ReplayStep(log4 + [WasProvisioned(B)] + [WasClosed(B)], RoomStarted(B, 1));
    assert SecondLog()[..9] == log4 + [WasProvisioned(B)] + [WasClosed(B)] + [RoomStarted(B, 1)];
  }
}
