/**
 The three-leg repair protocol: the board leg, the composite that routes between
 the legs, and the room leg with its own worker, joined by bounded FIFO queues.

 The room's stepwise repair attempt is external: each piece of room work carries
 what it answers (frames emitted, accepted, terminal, synchronized). Of the attempt the
 model keeps one fact, `terminal`, with its contract: a terminal attempt stays terminal
 and emits no more frames, and only a terminal attempt is synchronized by a confirmed
 close. Attempt numbers are an observer's and never decide anything.
 */
module RepairProtocol {
  import opened Prelude
  import opened BoardLeg
  import opened RepairLog
  import opened RepairBoard

  datatype RoomCommand =
    | Prepare(binding: Binding)
    | Start(binding: Binding)
    | Observe(binding: Binding)
    | Confirm(binding: Binding)
    | Abort(binding: Binding)
    | Join
    | Leave
    | OtherCommand

  datatype RoomEvent =
    | RoomLink(ready: bool)
    | RoomSelected
    | BundlePrepared(binding: Binding)
    | ProvisioningFailed(binding: Binding)
    | Outbound(binding: Binding)
    | Terminal(binding: Binding, attempt: nat)
    | Synchronized(binding: Binding, attempt: nat)
    | RepairFailed(binding: Binding)
    | OtherEvent

  const COMMAND_CAPACITY: nat := 64
  const ROOM_EVENT_CAPACITY: nat := 256

  datatype Attempt = Attempt(binding: Binding, number: nat, terminal: bool)

  /** `alive` is whether the worker still takes commands; `starts` counts the attempts started so far. */
  datatype Room = Room(
    alive: bool, active: bool, attempt: Option<Attempt>, starts: nat,
    commands: seq<RoomCommand>, events: seq<RoomEvent>)

  const InitialRoom: Room := Room(true, false, None, 0, [], [])

  /** What passes through the composite: placements announced and lost, and the commands it hands to each leg. */
  datatype Routed =
    | Announced(binding: Binding)
    | LinkDown
    | ToRoom(roomCommand: RoomCommand)
    | ToBoard(command: Command)

  datatype System = System(
    board: Leg, room: Room,
    roomReady: bool, boardBinding: Option<Binding>, requested: Option<Binding>, trace: seq<Routed>)

  function InitialSystem(trusted: set<nat>): System {
    System(InitialLeg(trusted), InitialRoom, false, None, None, [])
  }

  /** The board-side externals one routed room event may consult. */
  datatype BoardAnswers = BoardAnswers(receiver: nat, digest: nat, sent: bool, fits: bool, close: CloseAnswer)

  /** The room-side externals one command may consult. */
  datatype Work = Work(sameRoom: bool, joined: bool, frames: nat, accepted: bool, terminal: bool, synchronized: bool)

  // ---- Room leg ---------------------------------------------------------------

  /** A full event queue loses the event. */
  function Emit(room: Room, e: RoomEvent): Room {
    if |room.events| == ROOM_EVENT_CAPACITY then room else room.(events := room.events + [e])
  }

  /** Repair frames are never dropped silently: a full queue fails the attempt. */
  function EmitFrames(room: Room, b: Binding, n: nat): (Room, bool)
    decreases n
  {
    if n == 0 then (room, true)
    else if |room.events| == ROOM_EVENT_CAPACITY then (room, false)
    else EmitFrames(room.(events := room.events + [Outbound(b)]), b, n - 1)
  }

  function EmitAll(room: Room, events: seq<RoomEvent>): Room
    decreases |events|
  {
    if events == [] then room else EmitAll(Emit(room, events[0]), events[1..])
  }

  function BeginAttempt(room: Room, b: Binding, work: Work): (Room, bool) {
    if room.attempt.Some? then (room, false)
    else
      var (room', ok) := EmitFrames(room, b, work.frames);
      if !ok || !work.accepted then (room', false)
      else
        var room'' := room'.(attempt := Some(Attempt(b, room.starts, work.terminal)), starts := room.starts + 1);
        (if work.terminal then Emit(room'', Terminal(b, room.starts)) else room'', true)
  }

  predicate AttemptFor(room: Room, b: Binding) {
    room.attempt.Some? && room.attempt.value.binding == b
  }

  function DropAttempt(room: Room, b: Binding): Room {
    if AttemptFor(room, b) then room.(attempt := None) else room
  }

  /** Any failed repair command drops its attempt and reports the failure. */
  function FailAttempt(room: Room, b: Binding): Room {
    Emit(DropAttempt(room, b), RepairFailed(b))
  }

  function DoStart(room: Room, b: Binding, work: Work): (Room, seq<Note>) {
    if !room.active then (FailAttempt(room, b), [])
    else
      var (room', ok) := BeginAttempt(room, b, work);
      if ok then (room', [RoomStarted(b, room.starts)]) else (FailAttempt(room', b), [])
  }

  function DoObserve(room: Room, b: Binding, work: Work): Room {
    if !room.active || !AttemptFor(room, b) then FailAttempt(room, b)
    else
      var attempt := room.attempt.value;
      var (room', ok) := EmitFrames(room, b, if attempt.terminal then 0 else work.frames);
      if !ok || !work.accepted then FailAttempt(room', b)
      else
        var terminal := attempt.terminal || work.terminal;
        var room'' := EmitAll(room'.(attempt := Some(attempt.(terminal := terminal))), [OtherEvent, OtherEvent]);
        if terminal then Emit(room'', Terminal(b, attempt.number)) else room''
  }

  /** A confirmed close either synchronizes the attempt or starts a fresh one for the same placement. */
  function DoConfirm(room: Room, b: Binding, work: Work): (Room, seq<Note>) {
    if !room.active || !AttemptFor(room, b) then (FailAttempt(room, b), [])
    else
      var attempt := room.attempt.value;
      var room1 := room.(attempt := None);
      if !work.accepted then (FailAttempt(room1, b), [])
      else
        var room2 := EmitAll(room1, [OtherEvent, OtherEvent, OtherEvent]);
        if attempt.terminal && work.synchronized then
          (Emit(room2, Synchronized(b, attempt.number)), [RoomSynchronized(b, attempt.number)])
        else
          var (room3, ok) := BeginAttempt(room2, b, work);
          if ok then (room3, [RoomStarted(b, room.starts)]) else (FailAttempt(room3, b), [])
  }

  /** Joining the room one is in only repeats its announcement; any other join replaces the room. */
  function DoJoin(room: Room, sameRoom: bool, joined: bool): Room {
    if room.active && sameRoom then EmitAll(room, [RoomSelected, RoomLink(true)])
    else
      var room1 := EmitAll(room.(active := false, attempt := None), [OtherEvent, OtherEvent, RoomLink(false)]);
      if joined then EmitAll(room1.(active := true), [OtherEvent, OtherEvent, RoomSelected, RoomLink(true)])
      else EmitAll(room1, [RoomLink(false), OtherEvent])
  }

  /** The room's own transport stops: its attempt is gone, the worker lives on. */
  function DoStop(room: Room): Room {
    if !room.active then room
    else EmitAll(room.(active := false, attempt := None), [RoomLink(false), OtherEvent, OtherEvent, OtherEvent])
  }

  /** The worker ends: both of its channels close, what it had reported is still read. */
  function DoDie(room: Room): Room {
    EmitAll(room.(alive := false, active := false, attempt := None, commands := []),
            [OtherEvent, OtherEvent, RoomLink(false)])
  }

  function Perform(room: Room, c: RoomCommand, work: Work): (Room, seq<Note>) {
    match c
    case Prepare(b) =>
      (Emit(room, if room.active && work.accepted then BundlePrepared(b) else ProvisioningFailed(b)), [])
    case Start(b) => DoStart(room, b, work)
    case Observe(b) => (DoObserve(room, b, work), [])
    case Confirm(b) => DoConfirm(room, b, work)
    case Abort(b) => (DropAttempt(room, b), [])
    case Join => (DoJoin(room, work.sameRoom, work.joined), [])
    case Leave => (EmitAll(room.(active := false, attempt := None), [OtherEvent, OtherEvent, RoomLink(false)]), [])
    case OtherCommand => (Emit(room, OtherEvent), [])
  }

  // ---- Composite --------------------------------------------------------------

  /** A full or closed command channel refuses. */
  function Ask(sys: System, c: RoomCommand): (System, bool) {
    if !sys.room.alive || |sys.room.commands| == COMMAND_CAPACITY then (sys, false)
    else (sys.(room := sys.room.(commands := sys.room.commands + [c])), true)
  }

  function HandRoom(sys: System, c: RoomCommand): (System, bool) {
    Ask(sys.(trace := sys.trace + [ToRoom(c)]), c)
  }

  function HandBoard(sys: System, c: Command): (System, bool) {
    var (board, ok) := OnCommand(sys.board, c);
    (sys.(board := board, trace := sys.trace + [ToBoard(c)]), ok)
  }

  function RequestProvisioning(sys: System): System {
    if sys.boardBinding.None? || !sys.roomReady || sys.requested == sys.boardBinding then sys
    else
      var (sys', ok) := HandRoom(sys, Prepare(sys.boardBinding.value));
      if ok then sys'.(requested := sys'.boardBinding) else sys'
  }

  function Fence(sys: System, b: Binding): System {
    if sys.boardBinding != Some(b) then sys else HandBoard(HandRoom(sys, Abort(b)).0, AbortRepair(b)).0
  }

  function OrFence(result: (System, bool), b: Binding): System {
    if result.1 then result.0 else Fence(result.0, b)
  }

  predicate NamesPlacement(e: RoomEvent) {
    !e.RoomLink? && !e.RoomSelected? && !e.OtherEvent?
  }

  /** What the composite makes of a room event about the announced placement. */
  function RoutePlacementEvent(sys: System, e: RoomEvent, a: BoardAnswers): System
    requires NamesPlacement(e)
  {
    match e
    case BundlePrepared(b) =>
      var (sys', ok) := HandBoard(sys, SendBundle(b, a.receiver, a.digest, a.sent));
      if ok then sys' else sys'.(requested := None)
    case ProvisioningFailed(b) => sys.(requested := None)
    case Outbound(b) => OrFence(HandBoard(sys, SendFrame(b, a.fits, a.sent, a.close)), b)
    case Terminal(b, attempt) => OrFence(HandBoard(sys, FinishRepair(b, attempt, a.close)), b)
    case RepairFailed(b) => HandBoard(sys, AbortRepair(b)).0
    case Synchronized(b, attempt) => OrFence(HandBoard(sys, CompleteRepair(b, attempt)), b)
  }

  function RouteRoomEvent(sys: System, e: RoomEvent, a: BoardAnswers): System {
    match e
    case RoomLink(ready) =>
      if ready then RequestProvisioning(sys.(roomReady := true, requested := None))
      else sys.(roomReady := false, requested := None)
    case RoomSelected => RequestProvisioning(sys.(requested := None))
    case OtherEvent => sys
    case _ => if sys.boardBinding != Some(e.binding) then sys else RoutePlacementEvent(sys, e, a)
  }

  function RouteBoardEvent(sys: System, e: BoardEvent): System {
    match e
    case ProvisioningRequired(b) =>
      RequestProvisioning(sys.(boardBinding := Some(b), requested := None, trace := sys.trace + [Announced(b)]))
    case Provisioned(b) => if sys.boardBinding != Some(b) then sys else OrFence(HandRoom(sys, Start(b)), b)
    case RepairInbound(b) => if sys.boardBinding != Some(b) then sys else OrFence(HandRoom(sys, Observe(b)), b)
    case CarrierClosed(b) => if sys.boardBinding != Some(b) then sys else OrFence(HandRoom(sys, Confirm(b)), b)
    case BoardLink(link) =>
      if link == Ready || link == Repairing then sys
      else
        var sys1 := if sys.boardBinding.Some? then HandRoom(sys, Abort(sys.boardBinding.value)).0 else sys;
        sys1.(boardBinding := None, requested := None, trace := sys1.trace + [LinkDown])
    case Notice => sys
  }

  // ---- Steps of the whole system ------------------------------------------------

  datatype Move =
    | EditorToBoard(command: Command)
    | EditorToRoom(roomCommand: RoomCommand)
    | HostToBoard(event: HostEvent)
    | DeadlineExpires
    | RoomWorks(work: Work)
    | RoomStops
    | WorkerDies
    | RoomSpontaneous(roomEvent: RoomEvent)
    | RouteFromRoom(answers: BoardAnswers)
    | RouteFromBoard

  /**
   What the environment is free to do: the editor's commands short of trusting a
   forgotten board over its keyed session, and session ids that are fresh.
   */
  ghost predicate Allowed(sys: System, step: Move) {
    match step
    case EditorToBoard(c) => FromEditor(c) && !BadTrust(sys.board, ByCommand(c))
    case EditorToRoom(c) => c.Join? || c.Leave? || c.OtherCommand?
    case HostToBoard(e) => FreshAnswer(sys.board, e)
    case RoomSpontaneous(e) => !NamesPlacement(e)
    case _ => true
  }

  function Next(sys: System, step: Move): System {
    match step
    case EditorToBoard(c) => sys.(board := OnCommand(sys.board, c).0)
    case EditorToRoom(c) => Ask(sys, c).0
    case HostToBoard(e) => sys.(board := OnHost(sys.board, e))
    case DeadlineExpires => sys.(board := OnExpired(sys.board))
    case RoomWorks(work) =>
      if sys.room.commands == [] then sys
      else
        var (room, notes) := Perform(sys.room.(commands := sys.room.commands[1..]), sys.room.commands[0], work);
        sys.(room := room, board := sys.board.(log := sys.board.log + notes))
    case RoomStops => sys.(room := DoStop(sys.room))
    case WorkerDies => sys.(room := DoDie(sys.room))
    case RoomSpontaneous(e) => sys.(room := Emit(sys.room, e))
    case RouteFromRoom(a) =>
      if sys.room.events == [] then sys
      else RouteRoomEvent(sys.(room := sys.room.(events := sys.room.events[1..])), sys.room.events[0], a)
    case RouteFromBoard =>
      if Polled(sys.board).None? then sys
      else RouteBoardEvent(sys.(board := Take(sys.board)), Polled(sys.board).value)
  }

  function Reached(trusted: set<nat>, steps: seq<Move>): System {
    if steps == [] then InitialSystem(trusted) else Next(Reached(trusted, steps[..|steps| - 1]), steps[|steps| - 1])
  }

  ghost predicate AllowedAt(trusted: set<nat>, steps: seq<Move>, i: nat) {
    i < |steps| && Allowed(Reached(trusted, steps[..i]), steps[i])
  }

  ghost predicate AllowedRun(trusted: set<nat>, steps: seq<Move>) {
    forall i :: 0 <= i < |steps| ==> AllowedAt(trusted, steps, i)
  }

  lemma ReachedSnoc(trusted: set<nat>, steps: seq<Move>, step: Move)
    ensures Reached(trusted, steps + [step]) == Next(Reached(trusted, steps), step)
  {
    assert (steps + [step])[..|steps|] == steps;
  }

  lemma PrefixAllowed(trusted: set<nat>, steps: seq<Move>, n: nat)
    requires AllowedRun(trusted, steps) && n <= |steps|
    ensures AllowedRun(trusted, steps[..n])
  {
    forall i | 0 <= i < n ensures AllowedAt(trusted, steps[..n], i) {
      assert AllowedAt(trusted, steps, i);
      assert steps[..n][..i] == steps[..i];
    }
  }

  // ---- What crosses the composite ---------------------------------------------------

  /** The placement announced last, unless a link-down came after it. */
  function LastAnnounced(trace: seq<Routed>): Option<Binding> {
    if trace == [] then None
    else
      match trace[|trace| - 1]
      case Announced(b) => Some(b)
      case LinkDown => None
      case _ => LastAnnounced(trace[..|trace| - 1])
  }

  /** The placement a command the composite hands over is about. */
  function Named(r: Routed): Option<Binding> {
    match r
    case ToRoom(c) => if c.Join? || c.Leave? || c.OtherCommand? then None else Some(c.binding)
    case ToBoard(c) =>
      if c.SendBundle? || c.SendFrame? || c.FinishRepair? || c.CompleteRepair? || c.AbortRepair? then Some(c.binding)
          else None
    case _ => None
  }

  predicate IsCommand(r: Routed) {
    r.ToRoom? || r.ToBoard?
  }

  ghost predicate CrossesAt(trace: seq<Routed>, i: nat) {
    i < |trace| && (IsCommand(trace[i]) ==> Named(trace[i]).Some? && Named(trace[i]) == LastAnnounced(trace[..i]))
  }

  ghost predicate CrossingInv(sys: System) {
    && sys.boardBinding == LastAnnounced(sys.trace)
    && forall i :: 0 <= i < |sys.trace| ==> CrossesAt(sys.trace, i)
  }

  lemma TraceGrows(trace: seq<Routed>, r: Routed)
    requires forall i :: 0 <= i < |trace| ==> CrossesAt(trace, i)
    requires IsCommand(r) ==> Named(r).Some? && Named(r) == LastAnnounced(trace)
    ensures forall i :: 0 <= i < |trace + [r]| ==> CrossesAt(trace + [r], i)
    ensures LastAnnounced(trace + [r])
         == match r case Announced(b) => Some(b) case LinkDown => None case _ => LastAnnounced(trace)
  {
    assert (trace + [r])[..|trace|] == trace;
    forall i | 0 <= i < |trace + [r]| ensures CrossesAt(trace + [r], i) {
      if i < |trace| {
        assert CrossesAt(trace, i);
        assert (trace + [r])[..i] == trace[..i];
      }
    }
  }

  lemma HandCrosses(sys: System, c: RoomCommand, d: Command)
    requires CrossingInv(sys)
    ensures Named(ToRoom(c)).Some? && Named(ToRoom(c)) == sys.boardBinding ==> CrossingInv(HandRoom(sys, c).0)
    ensures Named(ToBoard(d)).Some? && Named(ToBoard(d)) == sys.boardBinding ==> CrossingInv(HandBoard(sys, d).0)
    ensures HandRoom(sys, c).0.boardBinding == sys.boardBinding && HandBoard(sys, d).0.boardBinding == sys.boardBinding
  {
    if Named(ToRoom(c)).Some? && Named(ToRoom(c)) == sys.boardBinding {
      TraceGrows(sys.trace, ToRoom(c));
    }
    if Named(ToBoard(d)).Some? && Named(ToBoard(d)) == sys.boardBinding {
      TraceGrows(sys.trace, ToBoard(d));
    }
  }

  lemma FenceCrosses(sys: System, b: Binding)
    requires CrossingInv(sys)
    ensures CrossingInv(Fence(sys, b))
  {
    if sys.boardBinding == Some(b) {
      HandCrosses(sys, Abort(b), AbortRepair(b));
      HandCrosses(HandRoom(sys, Abort(b)).0, Abort(b), AbortRepair(b));
    }
  }

  lemma RequestCrosses(sys: System)
    requires CrossingInv(sys)
    ensures CrossingInv(RequestProvisioning(sys))
  {
    if sys.boardBinding.Some? {
      HandCrosses(sys, Prepare(sys.boardBinding.value), AbortRepair(sys.boardBinding.value));
    }
  }

  /** The command a room event about the announced placement turns into. */
  function Translate(e: RoomEvent, a: BoardAnswers): Command
    requires NamesPlacement(e) && !e.ProvisioningFailed?
  {
    match e
    case BundlePrepared(b) => SendBundle(b, a.receiver, a.digest, a.sent)
    case Outbound(b) => SendFrame(b, a.fits, a.sent, a.close)
    case Terminal(b, attempt) => FinishRepair(b, attempt, a.close)
    case RepairFailed(b) => AbortRepair(b)
    case Synchronized(b, attempt) => CompleteRepair(b, attempt)
  }

  lemma PlacementCrosses(sys: System, e: RoomEvent, a: BoardAnswers)
    requires CrossingInv(sys) && NamesPlacement(e) && sys.boardBinding == Some(e.binding)
    ensures CrossingInv(RoutePlacementEvent(sys, e, a))
  {
    if !e.ProvisioningFailed? {
      HandCrosses(sys, Abort(e.binding), Translate(e, a));
      FenceCrosses(HandBoard(sys, Translate(e, a)).0, e.binding);
    }
  }

  lemma RoomEventCrosses(sys: System, e: RoomEvent, a: BoardAnswers)
    requires CrossingInv(sys)
    ensures CrossingInv(RouteRoomEvent(sys, e, a))
  {
    if NamesPlacement(e) {
      if sys.boardBinding == Some(e.binding) {
        PlacementCrosses(sys, e, a);
      }
    } else if e.RoomLink? {
      RequestCrosses(sys.(roomReady := true, requested := None));
    } else {
      RequestCrosses(sys.(requested := None));
    }
  }

  lemma BoardEventCrosses(sys: System, e: BoardEvent)
    requires CrossingInv(sys)
    ensures CrossingInv(RouteBoardEvent(sys, e))
  {
    match e
    case ProvisioningRequired(b) =>
      TraceGrows(sys.trace, Announced(b));
      RequestCrosses(sys.(boardBinding := Some(b), requested := None, trace := sys.trace + [Announced(b)]));
    case BoardLink(link) =>
      if link != Ready && link != Repairing {
        if sys.boardBinding.Some? {
          HandCrosses(sys, Abort(sys.boardBinding.value), AbortRepair(sys.boardBinding.value));
        }
        var sys1 := if sys.boardBinding.Some? then HandRoom(sys, Abort(sys.boardBinding.value)).0 else sys;
        TraceGrows(sys1.trace, LinkDown);
      }
    case Notice =>
    case Provisioned(b) => AskCrosses(sys, Start(b), b);
    case RepairInbound(b) => AskCrosses(sys, Observe(b), b);
    case CarrierClosed(b) => AskCrosses(sys, Confirm(b), b);
  }

  lemma AskCrosses(sys: System, c: RoomCommand, b: Binding)
    requires CrossingInv(sys) && Named(ToRoom(c)) == Some(b)
    ensures sys.boardBinding == Some(b) ==> CrossingInv(OrFence(HandRoom(sys, c), b))
  {
    if sys.boardBinding == Some(b) {
      HandCrosses(sys, c, AbortRepair(b));
      FenceCrosses(HandRoom(sys, c).0, b);
    }
  }

  lemma NextCrosses(sys: System, step: Move)
    requires CrossingInv(sys)
    ensures CrossingInv(Next(sys, step))
  {
    match step
    case RouteFromRoom(a) =>
      if sys.room.events != [] {
        RoomEventCrosses(sys.(room := sys.room.(events := sys.room.events[1..])), sys.room.events[0], a);
      }
    case RouteFromBoard =>
      if Polled(sys.board).Some? {
        BoardEventCrosses(sys.(board := Take(sys.board)), Polled(sys.board).value);
      }
    case _ =>
  }

  lemma {:induction false} RunCrosses(trusted: set<nat>, steps: seq<Move>)
    ensures CrossingInv(Reached(trusted, steps))
  {
    if steps != [] {
      RunCrosses(trusted, steps[..|steps| - 1]);
      NextCrosses(Reached(trusted, steps[..|steps| - 1]), steps[|steps| - 1]);
    }
  }

  /**
   In every run, every command the composite hands to either leg is about the placement
   it routed a provisioning request for last, with no link-down routed in between.
   */
  lemma OnlyTheAnnouncedPlacementCrosses(trusted: set<nat>, steps: seq<Move>, i: nat)
    requires i < |Reached(trusted, steps).trace| && IsCommand(Reached(trusted, steps).trace[i])
    ensures var trace := Reached(trusted, steps).trace;
            exists a :: 0 <= a < i && Named(trace[i]).Some? && trace[a] == Announced(Named(trace[i]).value)
                        && forall j :: a < j < i ==> IsCommand(trace[j])
  {
    RunCrosses(trusted, steps);
    var trace := Reached(trusted, steps).trace;
    assert CrossesAt(trace, i);
    var a := AnnouncedAt(trace[..i]);
    assert forall j :: a < j < i ==> trace[..i][j] == trace[j];
  }

  lemma {:induction false} AnnouncedAt(trace: seq<Routed>) returns (a: nat)
    requires LastAnnounced(trace).Some?
    ensures a < |trace| && trace[a] == Announced(LastAnnounced(trace).value)
    ensures forall j :: a < j < |trace| ==> IsCommand(trace[j])
  {
    var n := |trace| - 1;
    if trace[n].Announced? {
      a := n;
    } else {
      a := AnnouncedAt(trace[..n]);
    }
  }

  /** And in every run a room event about any other placement is dropped without a trace. */
  lemma StalePlacementsAreIgnored(trusted: set<nat>, steps: seq<Move>, a: BoardAnswers)
    requires var sys := Reached(trusted, steps);
             && sys.room.events != [] && NamesPlacement(sys.room.events[0])
             && LastAnnounced(sys.trace) != Some(sys.room.events[0].binding)
    ensures var sys := Reached(trusted, steps);
            Reached(trusted, steps + [RouteFromRoom(a)]) == sys.(room := sys.room.(events := sys.room.events[1..]))
  {
    RunCrosses(trusted, steps);
    ReachedSnoc(trusted, steps, RouteFromRoom(a));
  }
}
