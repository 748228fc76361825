/**
 What the composite carries from leg to leg. Read off the events it took from the two
 legs alone: each event about the placement announced last becomes exactly its own
 command on the other leg, in the order of the events, and nothing else does.
 */
module RepairRouting {
  import opened Prelude
  import opened BoardLeg
  import opened RepairLog
  import opened RepairBoard
  import opened RepairProtocol

  /** An event the composite took from a leg, with the answers the other leg's externals give meanwhile. */
  datatype Taken = OfRoom(roomEvent: RoomEvent, answers: BoardAnswers) | OfBoard(boardEvent: BoardEvent)

  function TakenBy(sys: System, step: Move): seq<Taken> {
    match step
    case RouteFromRoom(a) => if sys.room.events == [] then [] else [OfRoom(sys.room.events[0], a)]
    case RouteFromBoard => if Polled(sys.board).None? then [] else [OfBoard(Polled(sys.board).value)]
    case _ => []
  }

  function AllTaken(trusted: set<nat>, steps: seq<Move>): seq<Taken> {
    if steps == [] then []
    else
      var before := steps[..|steps| - 1];
      AllTaken(trusted, before) + TakenBy(Reached(trusted, before), steps[|steps| - 1])
  }

  predicate IsLinkDown(e: BoardEvent) {
    e.BoardLink? && e.link != Ready && e.link != Repairing
  }

  /** The placement the board asked to provision last, unless its link went down since. */
  function AnnouncedBy(taken: seq<Taken>): Option<Binding> {
    if taken == [] then None
    else
      match taken[|taken| - 1]
      case OfBoard(ProvisioningRequired(b)) => Some(b)
      case OfBoard(BoardLink(link)) =>
        if link == Ready || link == Repairing then AnnouncedBy(taken[..|taken| - 1]) else None
      case _ => AnnouncedBy(taken[..|taken| - 1])
  }

  /** The one command an event of the repair is there to cause on the other leg. */
  function Order(t: Taken): Option<Routed> {
    match t
    case OfBoard(Provisioned(b)) => Some(ToRoom(Start(b)))
    case OfBoard(RepairInbound(b)) => Some(ToRoom(Observe(b)))
    case OfBoard(CarrierClosed(b)) => Some(ToRoom(Confirm(b)))
    case OfRoom(BundlePrepared(b), a) => Some(ToBoard(SendBundle(b, a.receiver, a.digest, a.sent)))
    case OfRoom(Outbound(b), a) => Some(ToBoard(SendFrame(b, a.fits, a.sent, a.close)))
    case OfRoom(Terminal(b, n), a) => Some(ToBoard(FinishRepair(b, n, a.close)))
    case OfRoom(Synchronized(b, n), a) => Some(ToBoard(CompleteRepair(b, n)))
    case _ => None
  }

  function OrderIfAnnounced(t: Taken, announced: Option<Binding>): seq<Routed> {
    if Order(t).Some? && Named(Order(t).value) == announced && announced.Some? then [Order(t).value] else []
  }

  /** The orders of a whole sequence of events, each about the placement announced when it was taken. */
  function Orders(taken: seq<Taken>): seq<Routed> {
    if taken == [] then []
    else
      var before := taken[..|taken| - 1];
      Orders(before) + OrderIfAnnounced(taken[|taken| - 1], AnnouncedBy(before))
  }

  /** Commands that carry a repair on, as opposed to those that ask for or give up one. */
  predicate Carries(r: Routed) {
    match r
    case ToRoom(c) => c.Start? || c.Observe? || c.Confirm?
    case ToBoard(c) => c.SendBundle? || c.SendFrame? || c.FinishRepair? || c.CompleteRepair?
    case _ => false
  }

  function Carried(trace: seq<Routed>): seq<Routed> {
    if trace == [] then []
    else Carried(trace[..|trace| - 1]) + if Carries(trace[|trace| - 1]) then [trace[|trace| - 1]] else []
  }

  lemma CarriedOne(trace: seq<Routed>, r: Routed)
    ensures Carried(trace + [r]) == Carried(trace) + if Carries(r) then [r] else []
  {
    assert (trace + [r])[..|trace|] == trace;
  }

  lemma CarriedTwo(trace: seq<Routed>, a: Routed, b: Routed)
    requires !Carries(a) && !Carries(b)
    ensures Carried(trace + [a] + [b]) == Carried(trace)
  {
    CarriedOne(trace, a);
    CarriedOne(trace + [a], b);
  }

  /** A command was handed over, and the repair given up on both legs if it was refused. */
  predicate HandedOver(before: seq<Routed>, after: seq<Routed>, r: Routed, b: Binding) {
    || after == before + [r]
    || after == before + [r] + [ToRoom(Abort(b))] + [ToBoard(AbortRepair(b))]
  }

  lemma HandedOverCarries(before: seq<Routed>, after: seq<Routed>, r: Routed, b: Binding)
    requires HandedOver(before, after, r, b)
    ensures Carried(after) == Carried(before) + if Carries(r) then [r] else []
  {
    CarriedOne(before, r);
    CarriedTwo(before + [r], ToRoom(Abort(b)), ToBoard(AbortRepair(b)));
  }

  lemma FenceTrace(sys: System, b: Binding)
    requires sys.boardBinding == Some(b)
    ensures Fence(sys, b).trace == sys.trace + [ToRoom(Abort(b))] + [ToBoard(AbortRepair(b))]
    ensures Fence(sys, b).boardBinding == sys.boardBinding && Fence(sys, b).roomReady == sys.roomReady
  {
  }

  lemma RoomOrFence(sys: System, c: RoomCommand, b: Binding)
    requires sys.boardBinding == Some(b)
    ensures var sys' := OrFence(HandRoom(sys, c), b);
            && HandedOver(sys.trace, sys'.trace, ToRoom(c), b)
            && sys'.boardBinding == sys.boardBinding && sys'.roomReady == sys.roomReady
  {
    FenceTrace(HandRoom(sys, c).0, b);
  }

  lemma HandBoardTrace(sys: System, c: Command)
    ensures var sys' := HandBoard(sys, c).0;
            && sys'.trace == sys.trace + [ToBoard(c)] && sys'.boardBinding == sys.boardBinding
            && sys'.roomReady == sys.roomReady && sys'.room == sys.room
  {
  }

  lemma BoardOrFence(sys: System, c: Command, b: Binding)
    requires sys.boardBinding == Some(b)
    ensures var sys' := OrFence(HandBoard(sys, c), b);
            && HandedOver(sys.trace, sys'.trace, ToBoard(c), b)
            && sys'.boardBinding == sys.boardBinding && sys'.roomReady == sys.roomReady
  {
    HandBoardTrace(sys, c);
    FenceTrace(HandBoard(sys, c).0, b);
  }

  lemma RequestTrace(sys: System)
    ensures var sys' := RequestProvisioning(sys);
            && sys'.boardBinding == sys.boardBinding && sys'.roomReady == sys.roomReady
            && (sys'.trace == sys.trace
                || (sys.boardBinding.Some? && sys'.trace == sys.trace + [ToRoom(Prepare(sys.boardBinding.value))]))
  {
  }

  lemma RequestCarriesNothing(sys: System)
    ensures Carried(RequestProvisioning(sys).trace) == Carried(sys.trace)
  {
    RequestTrace(sys);
    if sys.boardBinding.Some? {
      CarriedOne(sys.trace, ToRoom(Prepare(sys.boardBinding.value)));
    }
  }

  /** What one routed event adds to what is carried, and what is announced and ready after it. */
  predicate CarriesOn(sys: System, sys': System, t: Taken) {
    && Carried(sys'.trace) == Carried(sys.trace) + OrderIfAnnounced(t, sys.boardBinding)
    && sys'.boardBinding == (match t
                             case OfBoard(ProvisioningRequired(b)) => Some(b)
                             case OfBoard(e) => if IsLinkDown(e) then None else sys.boardBinding
                             case _ => sys.boardBinding)
    && sys'.roomReady == (match t
                          case OfRoom(RoomLink(ready), _) => ready
                          case _ => sys.roomReady)
  }

  lemma ToRoomCarries(sys: System, c: RoomCommand, b: Binding)
    requires Carries(ToRoom(c)) && sys.boardBinding == Some(b)
    ensures var sys' := OrFence(HandRoom(sys, c), b);
            && Carried(sys'.trace) == Carried(sys.trace) + [ToRoom(c)]
            && sys'.boardBinding == sys.boardBinding && sys'.roomReady == sys.roomReady
  {
    RoomOrFence(sys, c, b);
    HandedOverCarries(sys.trace, OrFence(HandRoom(sys, c), b).trace, ToRoom(c), b);
  }

  lemma NothingAdded(carried: seq<Routed>)
    ensures carried + [] == carried
  {
  }

  lemma BoardEventCarries(sys: System, e: BoardEvent)
    ensures CarriesOn(sys, RouteBoardEvent(sys, e), OfBoard(e))
  {
    match e
    case ProvisioningRequired(b) => AnnouncementCarries(sys, b);
    case BoardLink(link) => LinkCarries(sys, link);
    case Notice => NothingAdded(Carried(sys.trace));
    case Provisioned(b) => RepairEventCarries(sys, e, b, Start(b));
    case RepairInbound(b) => RepairEventCarries(sys, e, b, Observe(b));
    case CarrierClosed(b) => RepairEventCarries(sys, e, b, Confirm(b));
  }

  lemma RepairEventCarries(sys: System, e: BoardEvent, b: Binding, c: RoomCommand)
    requires Order(OfBoard(e)) == Some(ToRoom(c)) && Named(ToRoom(c)) == Some(b)
    requires !e.ProvisioningRequired? && !e.BoardLink?
    requires RouteBoardEvent(sys, e) == if sys.boardBinding != Some(b) then sys else OrFence(HandRoom(sys, c), b)
    ensures CarriesOn(sys, RouteBoardEvent(sys, e), OfBoard(e))
  {
    NothingAdded(Carried(sys.trace));
    if sys.boardBinding == Some(b) {
      ToRoomCarries(sys, c, b);
    }
  }

  lemma AnnouncementCarries(sys: System, b: Binding)
    ensures CarriesOn(sys, RouteBoardEvent(sys, ProvisioningRequired(b)), OfBoard(ProvisioningRequired(b)))
  {
    var sys1 := sys.(boardBinding := Some(b), requested := None, trace := sys.trace + [Announced(b)]);
    NothingAdded(Carried(sys.trace));
    CarriedOne(sys.trace, Announced(b));
    RequestTrace(sys1);
    RequestCarriesNothing(sys1);
  }

  lemma LinkCarries(sys: System, link: BoardLeg.Link)
    ensures CarriesOn(sys, RouteBoardEvent(sys, BoardLink(link)), OfBoard(BoardLink(link)))
  {
    NothingAdded(Carried(sys.trace));
    if IsLinkDown(BoardLink(link)) {
      LinkDownCarriesNothing(sys);
    }
  }

  lemma LinkDownCarriesNothing(sys: System)
    ensures var sys1 := if sys.boardBinding.Some? then HandRoom(sys, Abort(sys.boardBinding.value)).0 else sys;
            Carried(sys1.trace + [LinkDown]) == Carried(sys.trace)
  {
    if sys.boardBinding.Some? {
      CarriedTwo(sys.trace, ToRoom(Abort(sys.boardBinding.value)), LinkDown);
    } else {
      CarriedOne(sys.trace, LinkDown);
    }
  }

  /** Routing a room event about the announced placement hands over its command, and fences at most. */
  lemma PlacementTrace(sys: System, e: RoomEvent, a: BoardAnswers)
    requires NamesPlacement(e) && !e.ProvisioningFailed? && sys.boardBinding == Some(e.binding)
    ensures var sys' := RoutePlacementEvent(sys, e, a);
            && HandedOver(sys.trace, sys'.trace, ToBoard(Translate(e, a)), e.binding)
            && sys'.boardBinding == sys.boardBinding && sys'.roomReady == sys.roomReady
  {
    HandBoardTrace(sys, Translate(e, a));
    BoardOrFence(sys, Translate(e, a), e.binding);
  }

  lemma PlacementEventCarries(sys: System, e: RoomEvent, a: BoardAnswers)
    requires NamesPlacement(e) && !e.ProvisioningFailed? && sys.boardBinding == Some(e.binding)
    ensures CarriesOn(sys, RoutePlacementEvent(sys, e, a), OfRoom(e, a))
  {
    PlacementTrace(sys, e, a);
    HandedOverCarries(sys.trace, RoutePlacementEvent(sys, e, a).trace, ToBoard(Translate(e, a)), e.binding);
    TranslateIsOrder(e, a);
  }

  lemma TranslateIsOrder(e: RoomEvent, a: BoardAnswers)
    requires NamesPlacement(e) && !e.ProvisioningFailed?
    ensures OrderIfAnnounced(OfRoom(e, a), Some(e.binding))
         == if Carries(ToBoard(Translate(e, a))) then [ToBoard(Translate(e, a))] else []
  {
  }

  lemma RoomEventCarries(sys: System, e: RoomEvent, a: BoardAnswers)
    ensures CarriesOn(sys, RouteRoomEvent(sys, e, a), OfRoom(e, a))
  {
    NothingAdded(Carried(sys.trace));
    if NamesPlacement(e) {
      if sys.boardBinding == Some(e.binding) && !e.ProvisioningFailed? {
        PlacementEventCarries(sys, e, a);
      }
    } else if e.RoomLink? {
      RequestTrace(sys.(roomReady := true, requested := None));
      RequestCarriesNothing(sys.(roomReady := true, requested := None));
    } else {
      RequestTrace(sys.(requested := None));
      RequestCarriesNothing(sys.(requested := None));
    }
  }

  /** The room is ready from its ready link on until its next link that is not. */
  function ReadyBy(taken: seq<Taken>): bool {
    if taken == [] then false
    else
      match taken[|taken| - 1]
      case OfRoom(RoomLink(ready), _) => ready
      case _ => ReadyBy(taken[..|taken| - 1])
  }

  lemma OrdersOne(taken: seq<Taken>, t: Taken)
    ensures Orders(taken + [t]) == Orders(taken) + OrderIfAnnounced(t, AnnouncedBy(taken))
    ensures AnnouncedBy(taken + [t]) == match t
                                        case OfBoard(ProvisioningRequired(b)) => Some(b)
                                        case OfBoard(e) => if IsLinkDown(e) then None else AnnouncedBy(taken)
                                        case _ => AnnouncedBy(taken)
    ensures ReadyBy(taken + [t]) == match t
                                    case OfRoom(RoomLink(ready), _) => ready
                                    case _ => ReadyBy(taken)
  {
    assert (taken + [t])[..|taken|] == taken;
  }

  predicate InStep(sys: System, taken: seq<Taken>) {
    && Carried(sys.trace) == Orders(taken)
    && sys.boardBinding == AnnouncedBy(taken) && sys.roomReady == ReadyBy(taken)
  }

  lemma TakenInStep(sys: System, sys': System, taken: seq<Taken>, t: Taken)
    requires InStep(sys, taken) && CarriesOn(sys, sys', t)
    ensures InStep(sys', taken + [t])
  {
    OrdersOne(taken, t);
  }

  lemma RouteRoomStep(sys: System, a: BoardAnswers)
    requires sys.room.events != []
    ensures Next(sys, RouteFromRoom(a))
         == RouteRoomEvent(sys.(room := sys.room.(events := sys.room.events[1..])), sys.room.events[0], a)
    ensures TakenBy(sys, RouteFromRoom(a)) == [OfRoom(sys.room.events[0], a)]
  {
  }

  lemma RouteBoardStep(sys: System)
    requires Polled(sys.board).Some?
    ensures Next(sys, RouteFromBoard) == RouteBoardEvent(sys.(board := Take(sys.board)), Polled(sys.board).value)
    ensures TakenBy(sys, RouteFromBoard) == [OfBoard(Polled(sys.board).value)]
  {
  }

  lemma NothingTaken(sys: System, step: Move)
    requires TakenBy(sys, step) == []
    ensures var sys' := Next(sys, step);
            sys'.trace == sys.trace && sys'.boardBinding == sys.boardBinding && sys'.roomReady == sys.roomReady
            && sys'.requested == sys.requested
  {
  }

  lemma NextInStep(sys: System, step: Move, taken: seq<Taken>)
    requires InStep(sys, taken)
    ensures InStep(Next(sys, step), taken + TakenBy(sys, step))
  {
    if TakenBy(sys, step) == [] {
      NothingTaken(sys, step);
      assert taken + [] == taken;
    } else if step.RouteFromRoom? {
      var sys1 := sys.(room := sys.room.(events := sys.room.events[1..]));
      RouteRoomStep(sys, step.answers);
      RoomEventCarries(sys1, sys.room.events[0], step.answers);
      TakenInStep(sys1, Next(sys, step), taken, OfRoom(sys.room.events[0], step.answers));
    } else {
      var sys1 := sys.(board := Take(sys.board));
      RouteBoardStep(sys);
      BoardEventCarries(sys1, Polled(sys.board).value);
      TakenInStep(sys1, Next(sys, step), taken, OfBoard(Polled(sys.board).value));
    }
  }

  lemma {:induction false} RunInStep(trusted: set<nat>, steps: seq<Move>)
    ensures InStep(Reached(trusted, steps), AllTaken(trusted, steps))
  {
    if steps != [] {
      var before := steps[..|steps| - 1];
      RunInStep(trusted, before);
      NextInStep(Reached(trusted, before), steps[|steps| - 1], AllTaken(trusted, before));
    }
  }

  /**
   In every run the repair commands the composite handed to the two legs are exactly the
   orders of the events it took from them, one for each event about the placement then
   announced and none for any other, in the order of the events.
   */
  lemma CommandsFollowEvents(trusted: set<nat>, steps: seq<Move>)
    ensures Carried(Reached(trusted, steps).trace) == Orders(AllTaken(trusted, steps))
  {
    RunInStep(trusted, steps);
  }

  // ---- What becomes of a command ----------------------------------------------------

  /** The room takes a command behind those it has, or refuses it because it is full or gone. */
  predicate Queues(room: Room, room': Room, c: RoomCommand) {
    room' == if room.alive && |room.commands| != COMMAND_CAPACITY
             then room.(commands := room.commands + [c]) else room
  }

  /** Both legs give up the placement: the room is told, and the board is keyed for it no more. */
  predicate Fenced(sys: System, sys': System, b: Binding) {
    && sys'.trace == sys.trace + [ToRoom(Abort(b))] + [ToBoard(AbortRepair(b))]
    && Queues(sys.room, sys'.room, Abort(b))
    && Current(sys'.board) != Some(b)
  }

  lemma AbortUnkeys(leg: Leg, b: Binding)
    ensures Current(OnCommand(leg, AbortRepair(b)).0) != Some(b)
  {
  }

  lemma FenceFences(sys: System, b: Binding)
    requires sys.boardBinding == Some(b)
    ensures Fenced(sys, Fence(sys, b), b)
  {
    AbortUnkeys(HandRoom(sys, Abort(b)).0.board, b);
  }

  /** A command for the room is queued last, or refused and the repair is given up on both legs. */
  predicate ReachesRoom(sys: System, sys': System, c: RoomCommand, b: Binding) {
    var handed := sys.(trace := sys.trace + [ToRoom(c)]);
    if sys.room.alive && |sys.room.commands| != COMMAND_CAPACITY
    then sys' == handed.(room := sys.room.(commands := sys.room.commands + [c]))
    else Fenced(handed, sys', b)
  }

  lemma RoomStep(sys: System, c: RoomCommand, b: Binding)
    requires sys.boardBinding == Some(b)
    ensures ReachesRoom(sys, OrFence(HandRoom(sys, c), b), c, b)
  {
    FenceFences(sys.(trace := sys.trace + [ToRoom(c)]), b);
  }

  lemma BoardEventStep(sys: System, e: BoardEvent)
    requires Order(OfBoard(e)).Some? && sys.boardBinding == Some(e.binding)
    ensures ReachesRoom(sys, RouteBoardEvent(sys, e), Order(OfBoard(e)).value.roomCommand, e.binding)
  {
    RoomStep(sys, Order(OfBoard(e)).value.roomCommand, e.binding);
  }

  /**
   In every run, a board event of the repair about the announced placement is handed to the
   room at once: its command is then the last one the room has still to take, or the room
   refused it and the repair is given up on both legs.
   */
  lemma BoardEventReachesTheRoom(trusted: set<nat>, steps: seq<Move>)
    requires var sys := Reached(trusted, steps);
             && Polled(sys.board).Some? && Order(OfBoard(Polled(sys.board).value)).Some?
             && AnnouncedBy(AllTaken(trusted, steps)) == Some(Polled(sys.board).value.binding)
    ensures var sys := Reached(trusted, steps);
            var e := Polled(sys.board).value;
            ReachesRoom(sys.(board := Take(sys.board)), Reached(trusted, steps + [RouteFromBoard]),
                        Order(OfBoard(e)).value.roomCommand, e.binding)
  {
    RunInStep(trusted, steps);
    ReachedSnoc(trusted, steps, RouteFromBoard);
    var sys := Reached(trusted, steps);
    RouteBoardStep(sys);
    BoardEventStep(sys.(board := Take(sys.board)), Polled(sys.board).value);
  }

  /**
   The board leg carries a command out; if it fails, the repair is given up on both legs,
   except that a bundle that could not be sent is only asked for again.
   */
  predicate ReachesBoard(sys: System, sys': System, c: Command, b: Binding) {
    var (board, ok) := OnCommand(sys.board, c);
    var handed := sys.(board := board, trace := sys.trace + [ToBoard(c)]);
    if ok then sys' == handed
    else if c.SendBundle? then sys' == handed.(requested := None)
    else Fenced(handed, sys', b)
  }

  lemma RoomEventStep(sys: System, e: RoomEvent, a: BoardAnswers)
    requires Order(OfRoom(e, a)).Some? && sys.boardBinding == Some(e.binding)
    ensures ReachesBoard(sys, RoutePlacementEvent(sys, e, a), Order(OfRoom(e, a)).value.command, e.binding)
  {
    FenceFences(HandBoard(sys, Order(OfRoom(e, a)).value.command).0, e.binding);
  }

  /** In every run, a room event of the repair about the announced placement is carried out by the board leg at once. */
  lemma RoomEventReachesTheBoard(trusted: set<nat>, steps: seq<Move>, a: BoardAnswers)
    requires var sys := Reached(trusted, steps);
             && sys.room.events != [] && Order(OfRoom(sys.room.events[0], a)).Some?
             && AnnouncedBy(AllTaken(trusted, steps)) == Some(sys.room.events[0].binding)
    ensures var sys := Reached(trusted, steps);
            var e := sys.room.events[0];
            ReachesBoard(sys.(room := sys.room.(events := sys.room.events[1..])),
                         Reached(trusted, steps + [RouteFromRoom(a)]), Order(OfRoom(e, a)).value.command, e.binding)
  {
    RunInStep(trusted, steps);
    ReachedSnoc(trusted, steps, RouteFromRoom(a));
    var sys := Reached(trusted, steps);
    RouteRoomStep(sys, a);
    RoomEventStep(sys.(room := sys.room.(events := sys.room.events[1..])), sys.room.events[0], a);
  }

  // ---- Asking for a bundle, and giving up ---------------------------------------------

  /** An event after which the room has to be asked for the announced placement's bundle. */
  predicate AsksAgain(t: Taken) {
    match t
    case OfBoard(ProvisioningRequired(_)) => true
    case OfRoom(RoomLink(ready), _) => ready
    case OfRoom(RoomSelected, _) => true
    case _ => false
  }

  /** The bundle of the announced placement, if any, is asked of a ready room. */
  predicate Asks(sys: System, sys': System) {
    if sys'.boardBinding.Some? && sys'.roomReady
    then var ask := Prepare(sys'.boardBinding.value);
         && sys'.trace != [] && sys'.trace[|sys'.trace| - 1] == ToRoom(ask)
         && Queues(sys.room, sys'.room, ask)
    else sys'.room == sys.room
  }

  lemma AskStep(sys: System)
    requires sys.requested.None?
    ensures Asks(sys, RequestProvisioning(sys))
  {
  }

  lemma BoardAsks(sys: System, b: Binding)
    ensures Asks(sys, RouteBoardEvent(sys, ProvisioningRequired(b)))
  {
    AskStep(sys.(boardBinding := Some(b), requested := None, trace := sys.trace + [Announced(b)]));
  }

  lemma RoomAsks(sys: System, e: RoomEvent, a: BoardAnswers)
    requires AsksAgain(OfRoom(e, a))
    ensures Asks(sys, RouteRoomEvent(sys, e, a))
  {
    AskStep(sys.(roomReady := true, requested := None));
    AskStep(sys.(requested := None));
  }

  /**
   In every run, whenever a placement is announced, the room becomes ready or another room
   is selected, a ready room is asked for the bundle of the placement then announced, if
   there is one; the request is the last thing it has to do, unless it refused.
   */
  lemma BundleIsAskedFor(trusted: set<nat>, steps: seq<Move>, step: Move)
    requires var asks := TakenBy(Reached(trusted, steps), step); asks != [] && AsksAgain(asks[0])
    ensures var sys, sys' := Reached(trusted, steps), Reached(trusted, steps + [step]);
            var taken := AllTaken(trusted, steps + [step]);
            && AnnouncedBy(taken) == sys'.boardBinding && ReadyBy(taken) == sys'.roomReady
            && if step.RouteFromRoom? then Asks(sys.(room := sys.room.(events := sys.room.events[1..])), sys')
               else Asks(sys, sys')
  {
    RunInStep(trusted, steps + [step]);
    ReachedSnoc(trusted, steps, step);
    var sys := Reached(trusted, steps);
    if step.RouteFromRoom? {
      RouteRoomStep(sys, step.answers);
      RoomAsks(sys.(room := sys.room.(events := sys.room.events[1..])), sys.room.events[0], step.answers);
    } else {
      RouteBoardStep(sys);
      BoardAsks(sys.(board := Take(sys.board)), Polled(sys.board).value.binding);
    }
  }

  /** The request for a bundle that counts as made, after an event was taken in the state before it. */
  function RequestedAfter(sys: System, sys': System, t: Taken): Option<Binding> {
    if AsksAgain(t) then
      if sys'.roomReady && sys.room.alive && |sys.room.commands| != COMMAND_CAPACITY then sys'.boardBinding else None
    else
      match t
      case OfRoom(RoomLink(_), _) => None
      case OfRoom(ProvisioningFailed(b), _) => if sys.boardBinding == Some(b) then None else sys.requested
      case OfRoom(BundlePrepared(b), a) =>
        if sys.boardBinding == Some(b) && !OnCommand(sys.board, SendBundle(b, a.receiver, a.digest, a.sent)).1
        then None else sys.requested
      case OfBoard(e) => if IsLinkDown(e) then None else sys.requested
      case _ => sys.requested
  }

  lemma AskRemembers(sys: System)
    requires sys.requested.None?
    ensures RequestProvisioning(sys).requested
         == if sys.roomReady && sys.room.alive && |sys.room.commands| != COMMAND_CAPACITY then sys.boardBinding
            else None
  {
  }

  lemma RoomEventRemembers(sys: System, e: RoomEvent, a: BoardAnswers)
    ensures var sys' := RouteRoomEvent(sys, e, a); sys'.requested == RequestedAfter(sys, sys', OfRoom(e, a))
  {
    RoomEventCarries(sys, e, a);
    if e.RoomLink? {
      AskRemembers(sys.(roomReady := true, requested := None));
    } else if e.RoomSelected? {
      AskRemembers(sys.(requested := None));
    }
  }

  lemma BoardEventRemembers(sys: System, e: BoardEvent)
    ensures var sys' := RouteBoardEvent(sys, e); sys'.requested == RequestedAfter(sys, sys', OfBoard(e))
  {
    BoardEventCarries(sys, e);
    if e.ProvisioningRequired? {
      AskRemembers(sys.(boardBinding := Some(e.binding), requested := None,
                        trace := sys.trace + [Announced(e.binding)]));
    }
  }

  /**
   In every run the request counted as made is the one the room last took, unless since then
   it failed, could not be sent on, or the link of room or board went.
   */
  lemma RequestIsRemembered(trusted: set<nat>, steps: seq<Move>, step: Move)
    ensures var sys, sys' := Reached(trusted, steps), Reached(trusted, steps + [step]);
            var taken := TakenBy(sys, step);
            sys'.requested == if taken == [] then sys.requested else RequestedAfter(sys, sys', taken[0])
  {
    ReachedSnoc(trusted, steps, step);
    var sys := Reached(trusted, steps);
    if TakenBy(sys, step) == [] {
      NothingTaken(sys, step);
    } else if step.RouteFromRoom? {
      RouteRoomStep(sys, step.answers);
      RoomEventRemembers(sys.(room := sys.room.(events := sys.room.events[1..])), sys.room.events[0], step.answers);
    } else {
      RouteBoardStep(sys);
      BoardEventRemembers(sys.(board := Take(sys.board)), Polled(sys.board).value);
    }
  }

  lemma FailureStep(sys: System, b: Binding, a: BoardAnswers)
    requires sys.boardBinding == Some(b)
    ensures Current(RouteRoomEvent(sys, RepairFailed(b), a).board) != Some(b)
  {
    AbortUnkeys(sys.board, b);
  }

  /** In every run, a failure the room reports of the announced placement's repair is given up by the board. */
  lemma RoomFailureCrosses(trusted: set<nat>, steps: seq<Move>, a: BoardAnswers)
    requires var sys := Reached(trusted, steps);
             && sys.room.events != [] && sys.room.events[0].RepairFailed?
             && AnnouncedBy(AllTaken(trusted, steps)) == Some(sys.room.events[0].binding)
    ensures Current(Reached(trusted, steps + [RouteFromRoom(a)]).board)
            != Some(Reached(trusted, steps).room.events[0].binding)
  {
    RunInStep(trusted, steps);
    ReachedSnoc(trusted, steps, RouteFromRoom(a));
    var sys := Reached(trusted, steps);
    RouteRoomStep(sys, a);
    FailureStep(sys.(room := sys.room.(events := sys.room.events[1..])), sys.room.events[0].binding, a);
  }

  /** The room is told to give up what is announced, and nothing is announced any more. */
  predicate Withdraws(sys: System, sys': System) {
    && sys'.boardBinding.None?
    && (if sys.boardBinding.Some? then Queues(sys.room, sys'.room, Abort(sys.boardBinding.value))
        else sys'.room == sys.room)
  }

  lemma LinkDownStep(sys: System, e: BoardEvent)
    requires IsLinkDown(e)
    ensures Withdraws(sys, RouteBoardEvent(sys, e))
  {
  }

  /** In every run, when the board's link goes down the room is told to give up the placement announced till then. */
  lemma LinkDownCrosses(trusted: set<nat>, steps: seq<Move>)
    requires var sys := Reached(trusted, steps); Polled(sys.board).Some? && IsLinkDown(Polled(sys.board).value)
    ensures Reached(trusted, steps).boardBinding == AnnouncedBy(AllTaken(trusted, steps))
    ensures Withdraws(Reached(trusted, steps), Reached(trusted, steps + [RouteFromBoard]))
  {
    RunInStep(trusted, steps);
    ReachedSnoc(trusted, steps, RouteFromBoard);
    var sys := Reached(trusted, steps);
    RouteBoardStep(sys);
    LinkDownStep(sys.(board := Take(sys.board)), Polled(sys.board).value);
  }
}
