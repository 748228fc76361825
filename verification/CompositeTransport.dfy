/** The composite as an object: it owns the board leg and writes to the room leg's command channel. */
module CompositeRouting {
  import opened Prelude
  import opened BoardLeg
  import opened BleLink
  import opened RepairProtocol

  class CompositeTransport {
    const board: BleLinkTransport
    var room: Room
    var roomReady: bool
    var boardBinding: Option<Binding>
    var requested: Option<Binding>
    ghost var trace: seq<Routed>

    ghost function State(): System
      reads this, board
    {
      System(board.State(), room, roomReady, boardBinding, requested, trace)
    }

    constructor (trusted: set<nat>)
      ensures State() == InitialSystem(trusted) && fresh(board)
    {
      board := new BleLinkTransport(trusted);
      room := InitialRoom;
      roomReady := false;
      boardBinding, requested := None, None;
      trace := [];
    }

    /** Refused exactly by a full or closed channel, and then nothing is queued. */
    method AskRoom(c: RoomCommand) returns (ok: bool)
      modifies this`room, this`trace
      ensures (State(), ok) == HandRoom(old(State()), c)
      ensures ok <==> old(room).alive && |old(room).commands| != COMMAND_CAPACITY
      ensures room.commands == if ok then old(room).commands + [c] else old(room).commands
    {
      trace := trace + [ToRoom(c)];
      if !room.alive || |room.commands| == COMMAND_CAPACITY {
        return false;
      }
      room := room.(commands := room.commands + [c]);
      return true;
    }

    method OrderBoard(c: Command) returns (ok: bool)
      modifies this`trace, board
      ensures (State(), ok) == HandBoard(old(State()), c)
    {
      trace := trace + [ToBoard(c)];
      ok := board.HandleCommand(c);
    }

    /** Asked once per placement, and only of a ready room. */
    method RequestBoardProvisioning()
      modifies this`room, this`requested, this`trace
      ensures State() == RequestProvisioning(old(State()))
      ensures room != old(room) ==> roomReady && boardBinding.Some? && old(requested) != boardBinding == requested
    {
      if boardBinding.None? || !roomReady || requested == boardBinding {
        return;
      }
      var ok := AskRoom(Prepare(boardBinding.value));
      if ok {
        requested := boardBinding;
      }
    }

    /** The announced placement's repair is over on both legs; any other placement's is none of our business. */
    method FenceBoardRepair(b: Binding)
      modifies this`room, this`trace, board
      ensures State() == Fence(old(State()), b)
      ensures boardBinding == Some(b) ==> Current(board.State()) != Some(b)
      ensures boardBinding != Some(b) ==> State() == old(State())
    {
      if boardBinding != Some(b) {
        return;
      }
      var _ := AskRoom(Abort(b));
      trace := trace + [ToBoard(AbortRepair(b))];
      board.AbortBoardRepair(b);
    }

    method SendOrFence(b: Binding, c: Command)
      modifies this`room, this`trace, board
      ensures State() == OrFence(HandBoard(old(State()), c), b)
    {
      var ok := OrderBoard(c);
      if !ok {
        FenceBoardRepair(b);
      }
    }

    method AskOrFence(b: Binding, c: RoomCommand)
      modifies this`room, this`trace, board
      ensures State() == OrFence(HandRoom(old(State()), c), b)
    {
      var ok := AskRoom(c);
      if !ok {
        FenceBoardRepair(b);
      }
    }

    method RoutePlacement(e: RoomEvent, a: BoardAnswers)
      requires NamesPlacement(e)
      modifies this, board
      ensures State() == RoutePlacementEvent(old(State()), e, a)
    {
      match e {
        case BundlePrepared(b) =>
          var ok := OrderBoard(SendBundle(b, a.receiver, a.digest, a.sent));
          if !ok {
            requested := None;
          }
        case ProvisioningFailed(b) => requested := None;
        case Outbound(b) => SendOrFence(b, SendFrame(b, a.fits, a.sent, a.close));
        case Terminal(b, attempt) => SendOrFence(b, FinishRepair(b, attempt, a.close));
        case RepairFailed(b) => var _ := OrderBoard(AbortRepair(b));
        case Synchronized(b, attempt) => SendOrFence(b, CompleteRepair(b, attempt));
      }
    }

    /** One room event; what crosses stays about the placement announced last. */
    method RouteRoom(e: RoomEvent, a: BoardAnswers)
      modifies this, board
      ensures State() == RouteRoomEvent(old(State()), e, a)
      ensures NamesPlacement(e) && old(boardBinding) != Some(e.binding) ==> State() == old(State())
      ensures old(CrossingInv(State())) ==> CrossingInv(State())
    {
      ghost var before := State();
      match e {
        case RoomLink(ready) =>
          roomReady := ready;
          requested := None;
          if ready {
            RequestBoardProvisioning();
          }
        case RoomSelected =>
          requested := None;
          RequestBoardProvisioning();
        case OtherEvent =>
        case _ =>
          if boardBinding == Some(e.binding) {
            RoutePlacement(e, a);
          }
      }
      if CrossingInv(before) {
        RoomEventCrosses(before, e, a);
      }
    }

    /** One board event; what crosses stays about the placement announced last. */
    method RouteBoard(e: BoardEvent)
      modifies this, board
      ensures State() == RouteBoardEvent(old(State()), e)
      ensures e.BoardLink? && e.link != Ready && e.link != Repairing ==> boardBinding.None?
      ensures old(CrossingInv(State())) ==> CrossingInv(State())
    {
      ghost var before := State();
      match e {
        case ProvisioningRequired(b) =>
          boardBinding, requested := Some(b), None;
          trace := trace + [Announced(b)];
          RequestBoardProvisioning();
        case Provisioned(b) =>
          if boardBinding == Some(b) {
            AskOrFence(b, Start(b));
          }
        case RepairInbound(b) =>
          if boardBinding == Some(b) {
            AskOrFence(b, Observe(b));
          }
        case CarrierClosed(b) =>
          if boardBinding == Some(b) {
            AskOrFence(b, Confirm(b));
          }
        case BoardLink(link) =>
          if link != Ready && link != Repairing {
            if boardBinding.Some? {
              var _ := AskRoom(Abort(boardBinding.value));
            }
            boardBinding, requested := None, None;
            trace := trace + [LinkDown];
          }
        case Notice =>
      }
      if CrossingInv(before) {
        BoardEventCrosses(before, e);
      }
    }
  }
}
