/**
 Where message ids come from: a sixteen-bit counter that every send advances, refused
 sends included, and that wraps; a new session starts it again from zero. This says
 exactly when it hands out the id of a message that is still queued, and so when the
 receiver's guarantee holds of the ids the program really uses.
 */
module BleMessageIds {
  import opened Prelude
  import opened BleFragments
  import opened BleScheduler
  import opened BleDelivery
  import opened BleEndToEnd

  const TURN: nat := 0x1_0000

  /** A send is refused before the scheduler sees it when it has no pieces to offer. */
  datatype Move =
    | Send(priority: Priority, pieces: Option<seq<seq<byte>>>)
    | Restart
    | Offer
    | Acknowledge
    | Lose
    | Open

  /** The serial numbers of the messages accepted in this connection, lane by lane. */
  datatype Serials = Serials(control: seq<nat>, realtime: seq<nat>, repair: seq<nat>)

  const NoSerials: Serials := Serials([], [], [])

  /** `next` is the program's counter; `serial` counts the same sends without wrapping. */
  datatype Link = Link(h: History, next: u16, serial: nat, log: Serials)

  const InitialLink: Link := Link(InitialHistory, 0, 0, NoSerials)

  function SerialsOf(log: Serials, p: Priority): seq<nat> {
    match p
    case Control => log.control
    case Realtime => log.realtime
    case Repair => log.repair
  }

  function Logged(log: Serials, p: Priority, n: nat): Serials {
    match p
    case Control => log.(control := log.control + [n])
    case Realtime => log.(realtime := log.realtime + [n])
    case Repair => log.(repair := log.repair + [n])
  }

  function Plan(l: Link, pieces: Option<seq<seq<byte>>>): Option<Message> {
    if pieces.None? then None else Some(Message(l.next, pieces.value))
  }

  function Next(l: Link, m: Move): Link {
    match m
    case Send(p, pieces) =>
      Link(Step(l.h, DoEnqueue(p, Plan(l, pieces))), (l.next + 1) % TURN, l.serial + 1,
           if l.h.tx.faulted || pieces.None? then l.log else Logged(l.log, p, l.serial))
    case Restart => l.(next := 0, serial := 0)
    case Offer => l.(h := Step(l.h, DoPrepare))
    case Acknowledge => l.(h := Step(l.h, DoConfirm))
    case Lose => l.(h := Step(l.h, DoFault), log := NoSerials)
    case Open => l.(h := Step(l.h, DoFresh), log := NoSerials)
  }

  function Drive(moves: seq<Move>): Link {
    if moves == [] then InitialLink else Next(Drive(moves[..|moves| - 1]), moves[|moves| - 1])
  }

  /** A message sent as number n of its session is still queued. */
  ghost predicate Waiting(l: Link, n: nat) {
    exists p :: WaitingIn(LaneOf(l.h.epoch, p), SerialsOf(l.log, p), n)
  }

  ghost predicate WaitingIn(lane: Lane, serials: seq<nat>, n: nat) {
    exists i :: |lane.completed| <= i < |serials| && serials[i] == n
  }

  ghost predicate Numbered(lane: Lane, serials: seq<nat>) {
    && |serials| == |lane.accepted|
    && forall i :: 0 <= i < |serials| ==> lane.accepted[i].id == serials[i] % TURN
  }

  ghost predicate LinkInv(l: Link) {
    && HistoryInv(l.h)
    && l.next == l.serial % TURN
    && forall p :: Numbered(LaneOf(l.h.epoch, p), SerialsOf(l.log, p))
  }

  lemma SendKeeps(l: Link, p: Priority, pieces: Option<seq<seq<byte>>>)
    requires LinkInv(l)
    ensures LinkInv(Next(l, Send(p, pieces)))
  {
    var l' := Next(l, Send(p, pieces));
    StepKeepsHistory(l.h, DoEnqueue(p, Plan(l, pieces)));
    forall r ensures Numbered(LaneOf(l'.h.epoch, r), SerialsOf(l'.log, r)) {
      assert Numbered(LaneOf(l.h.epoch, r), SerialsOf(l.log, r));
    }
  }

  /** Offering and acknowledging accept nothing, and only an acknowledgement retires. */
  lemma PlatformFrame(h: History, a: Action, p: Priority)
    requires a.DoPrepare? || a.DoConfirm?
    ensures LaneOf(Step(h, a).epoch, p).accepted == LaneOf(h.epoch, p).accepted
    ensures |LaneOf(h.epoch, p).completed| <= |LaneOf(Step(h, a).epoch, p).completed|
  {
  }

  lemma MoveKeeps(l: Link, m: Move)
    requires LinkInv(l)
    ensures LinkInv(Next(l, m))
  {
    match m
    case Send(p, pieces) => SendKeeps(l, p, pieces);
    case Restart =>
    case Offer => PlatformKeeps(l, DoPrepare);
    case Acknowledge => PlatformKeeps(l, DoConfirm);
    case Lose => StepKeepsHistory(l.h, DoFault);
    case Open => StepKeepsHistory(l.h, DoFresh);
  }

  lemma PlatformKeeps(l: Link, a: Action)
    requires LinkInv(l) && (a.DoPrepare? || a.DoConfirm?)
    ensures LinkInv(l.(h := Step(l.h, a)))
  {
    StepKeepsHistory(l.h, a);
    forall p ensures Numbered(LaneOf(Step(l.h, a).epoch, p), SerialsOf(l.log, p)) {
      assert Numbered(LaneOf(l.h.epoch, p), SerialsOf(l.log, p));
      PlatformFrame(l.h, a, p);
    }
  }

  lemma {:induction false} DriveKeeps(moves: seq<Move>)
    ensures LinkInv(Drive(moves))
  {
    if moves == [] {
      RunKeepsHistory([]);
      forall p ensures Numbered(LaneOf(InitialLink.h.epoch, p), SerialsOf(InitialLink.log, p)) {
      }
    } else {
      DriveKeeps(moves[..|moves| - 1]);
      MoveKeeps(Drive(moves[..|moves| - 1]), moves[|moves| - 1]);
    }
  }

  // ---- When an id is handed out twice -----------------------------------------

  /** The counter stands on the id of a message that is still queued. */
  ghost predicate Collides(l: Link) {
    exists n: nat :: Waiting(l, n) && n % TURN == l.serial % TURN
  }

  /** Message i of a lane's queue is the lane's accepted message after the completed ones. */
  lemma QueuedIsAccepted(l: Link, p: Priority, i: nat)
    requires LinkInv(l) && i < |QueueOf(l.h.tx, p)|
    ensures var lane := LaneOf(l.h.epoch, p);
            var serials := SerialsOf(l.log, p);
            && |lane.completed| + |QueueOf(l.h.tx, p)| == |serials| == |lane.accepted|
            && QueueOf(l.h.tx, p)[i].message == lane.accepted[|lane.completed| + i]
            && QueueOf(l.h.tx, p)[i].message.id == serials[|lane.completed| + i] % TURN
  {
    var lane := LaneOf(l.h.epoch, p);
    assert LaneOk(l.h, p) && Numbered(lane, SerialsOf(l.log, p));
    assert lane.accepted[|lane.completed|..][i] == lane.accepted[|lane.completed| + i];
  }

  lemma LiveHasSerial(l: Link, p: Priority) returns (n: nat)
    requires LinkInv(l) && l.next in IdSet(ViewOf(l.h.tx, p))
    ensures WaitingIn(LaneOf(l.h.epoch, p), SerialsOf(l.log, p), n) && n % TURN == l.serial % TURN
  {
    var q := QueueOf(l.h.tx, p);
    var i :| 0 <= i < |q| && Messages(q)[i].id == l.next;
    QueuedIsAccepted(l, p, i);
    n := SerialsOf(l.log, p)[|LaneOf(l.h.epoch, p).completed| + i];
  }

  lemma SerialIsLive(l: Link, p: Priority, n: nat)
    requires LinkInv(l)
    requires WaitingIn(LaneOf(l.h.epoch, p), SerialsOf(l.log, p), n) && n % TURN == l.serial % TURN
    ensures l.next in IdSet(ViewOf(l.h.tx, p))
  {
    var lane, serials, q := LaneOf(l.h.epoch, p), SerialsOf(l.log, p), QueueOf(l.h.tx, p);
    var d := |lane.completed|;
    var i :| d <= i < |serials| && serials[i] == n;
    QueueIsAsLong(l, p);
    QueuedIsAccepted(l, p, i - d);
    assert Messages(q)[i - d].id == l.next;
  }

  lemma QueueIsAsLong(l: Link, p: Priority)
    requires LinkInv(l)
    ensures |LaneOf(l.h.epoch, p).completed| + |QueueOf(l.h.tx, p)| == |SerialsOf(l.log, p)|
  {
    assert LaneOk(l.h, p) && Numbered(LaneOf(l.h.epoch, p), SerialsOf(l.log, p));
  }

  lemma LiveIff(l: Link)
    requires LinkInv(l)
    ensures Live(l.h.tx, l.next) <==> Collides(l)
  {
    if Live(l.h.tx, l.next) {
      var p :| l.next in IdSet(ViewOf(l.h.tx, p));
      var n := LiveHasSerial(l, p);
      assert Waiting(l, n);
    }
    if Collides(l) {
      var n: nat :| Waiting(l, n) && n % TURN == l.serial % TURN;
      var p :| WaitingIn(LaneOf(l.h.epoch, p), SerialsOf(l.log, p), n);
      SerialIsLive(l, p, n);
    }
  }

  /** Sessions restart only while nothing is queued. */
  ghost predicate Orderly(moves: seq<Move>) {
    forall k :: 0 <= k < |moves| && moves[k].Restart? ==> Pick(Drive(moves[..k]).h.tx).None?
  }

  /** What waits was sent before: at most this session's sends so far. */
  ghost predicate SentBefore(l: Link) {
    forall p, i :: |LaneOf(l.h.epoch, p).completed| <= i < |SerialsOf(l.log, p)| ==> SerialsOf(l.log, p)[i] < l.serial
  }

  lemma IdleHasNothing(l: Link, p: Priority)
    requires LinkInv(l) && Pick(l.h.tx).None?
    ensures |LaneOf(l.h.epoch, p).completed| == |SerialsOf(l.log, p)|
  {
    QueueIsAsLong(l, p);
  }

  lemma MoveSentBefore(l: Link, m: Move)
    requires LinkInv(l) && SentBefore(l) && (m.Restart? ==> Pick(l.h.tx).None?)
    ensures SentBefore(Next(l, m))
  {
    var l' := Next(l, m);
    forall p, i | |LaneOf(l'.h.epoch, p).completed| <= i < |SerialsOf(l'.log, p)|
      ensures SerialsOf(l'.log, p)[i] < l'.serial {
      if m.Restart? {
        IdleHasNothing(l, p);
      } else if m.Offer? {
        PlatformFrame(l.h, DoPrepare, p);
      } else if m.Acknowledge? {
        PlatformFrame(l.h, DoConfirm, p);
      }
    }
  }

  lemma NothingSentYet()
    ensures SentBefore(InitialLink)
  {
    assert forall p :: SerialsOf(InitialLink.log, p) == [];
  }

  lemma {:induction false} DriveSentBefore(moves: seq<Move>)
    requires Orderly(moves)
    ensures SentBefore(Drive(moves))
  {
    if moves == [] {
      NothingSentYet();
    } else {
      var n := |moves| - 1;
      PrefixIsOrderly(moves, n);
      DriveSentBefore(moves[..n]);
      DriveKeeps(moves[..n]);
      MoveSentBefore(Drive(moves[..n]), moves[n]);
    }
  }

  /** A message still queued was sent a whole number of turns of the counter ago. */
  ghost predicate WrapsOnto(l: Link) {
    exists n: nat :: Waiting(l, n) && n < l.serial && (l.serial - n) % TURN == 0
  }

  /**
   In every run the next id is still in use exactly when the counter stands on that of a
   queued message; and where sessions restart with nothing queued that is exactly when
   some queued message was sent 65536 sends ago, or a multiple of that, refused sends
   counted.
   */
  lemma IdIsReusedIff(moves: seq<Move>)
    ensures Live(Drive(moves).h.tx, Drive(moves).next) <==> Collides(Drive(moves))
    ensures Orderly(moves) ==> (Collides(Drive(moves)) <==> WrapsOnto(Drive(moves)))
  {
    DriveKeeps(moves);
    LiveIff(Drive(moves));
    if Orderly(moves) {
      DriveSentBefore(moves);
      CollidesIff(Drive(moves));
    }
  }

  lemma CollidesIff(l: Link)
    requires SentBefore(l)
    ensures Collides(l) <==> WrapsOnto(l)
  {
    if Collides(l) {
      var n: nat :| Waiting(l, n) && n % TURN == l.serial % TURN;
      WaitingIsEarlier(l, n);
      SameResidueIff(n, l.serial);
      assert WrapsOnto(l);
    }
    if WrapsOnto(l) {
      var n: nat :| Waiting(l, n) && n < l.serial && (l.serial - n) % TURN == 0;
      SameResidueIff(n, l.serial);
    }
  }

  lemma WaitingIsEarlier(l: Link, n: nat)
    requires SentBefore(l) && Waiting(l, n)
    ensures n < l.serial
  {
  }

  lemma SameResidueIff(a: nat, b: nat)
    requires a <= b
    ensures a % TURN == b % TURN <==> (b - a) % TURN == 0
  {
  }

  // ---- What the receiver then gets ----------------------------------------------

  /** The fragmenter's part: a message that is not refused has pieces, none of them empty. */
  ghost predicate Planned(moves: seq<Move>) {
    forall k :: 0 <= k < |moves| && moves[k].Send? && moves[k].pieces.Some? ==>
        Sendable(Message(0, moves[k].pieces.value))
  }

  /** No message is taken while its id is that of a queued one. */
  ghost predicate NeverCollides(moves: seq<Move>) {
    forall k :: 0 <= k < |moves| && moves[k].Send? && moves[k].pieces.Some? ==> !Collides(Drive(moves[..k]))
  }

  lemma {:induction false} DriveKeepsReceiver(moves: seq<Move>)
    requires Planned(moves) && NeverCollides(moves)
    ensures ReceiverInv(Drive(moves).h)
  {
    if moves == [] {
      EmptyReceiver(InitialHistory);
    } else {
      var before, m := moves[..|moves| - 1], moves[|moves| - 1];
      forall k | 0 <= k < |before| ensures before[..k] == moves[..k] && before[k] == moves[k] {
      }
      DriveKeepsReceiver(before);
      DriveKeeps(before);
      var l := Drive(before);
      match m {
        case Send(p, pieces) =>
          IdIsReusedIff(before);
          assert pieces.Some? ==> !Collides(l) && Sendable(Message(0, pieces.value));
          StepKeepsReceiver(l.h, DoEnqueue(p, Plan(l, pieces)));
        case Restart =>
        case Offer => StepKeepsReceiver(l.h, DoPrepare);
        case Acknowledge => StepKeepsReceiver(l.h, DoConfirm);
        case Lose => StepKeepsReceiver(l.h, DoFault);
        case Open => StepKeepsReceiver(l.h, DoFresh);
      }
    }
  }

  /**
   With the ids the program really assigns, the receiver rebuilds exactly the completed
   messages as long as no message is taken while the counter stands on a queued one.
   */
  lemma ReceiverRebuildsUnlessReused(moves: seq<Move>)
    requires Planned(moves) && NeverCollides(moves)
    ensures var e := Drive(moves).h.epoch;
            && !e.receiver.refused
            && |e.receiver.partial| <= PARTIAL_BUDGET
            && e.receiver.delivered == Deliveries(e.retired)
  {
    DriveKeepsReceiver(moves);
    InFlightBound(Drive(moves).h.tx);
    assert |Drive(moves).h.epoch.receiver.partial| == |InFlight(Drive(moves).h.tx)|;
  }

  /** In particular, it never does in sessions of at most 65536 sends that start with nothing queued. */
  lemma ShortSessionsNeverCollide(moves: seq<Move>)
    requires Orderly(moves)
    requires forall k :: 0 <= k < |moves| && moves[k].Send? ==> Drive(moves[..k]).serial < TURN
    ensures NeverCollides(moves)
  {
    forall k | 0 <= k < |moves| && moves[k].Send? && moves[k].pieces.Some? ensures !Collides(Drive(moves[..k])) {
      PrefixIsOrderly(moves, k);
      IdIsReusedIff(moves[..k]);
      TooSoonToWrap(Drive(moves[..k]));
    }
  }

  lemma PrefixIsOrderly(moves: seq<Move>, n: nat)
    requires Orderly(moves) && n <= |moves|
    ensures Orderly(moves[..n])
  {
    forall k | 0 <= k < n && moves[..n][k].Restart? ensures Pick(Drive(moves[..n][..k]).h.tx).None? {
      assert moves[..n][..k] == moves[..k];
    }
  }

  lemma TooSoonToWrap(l: Link)
    requires l.serial < TURN
    ensures !WrapsOnto(l)
  {
  }

  // ---- Wrapping does happen -------------------------------------------------------

  /** One message waits while n further sends are refused for want of room. */
  function Stall(n: nat): seq<Move> {
    if n == 0 then [Open, Send(Repair, Some([[0]]))] else Stall(n - 1) + [Send(Realtime, None)]
  }

  /** One message accepted on the repair lane, n + 1 sends made, nothing completed. */
  predicate Stalled(l: Link, n: nat) {
    && l.serial == n + 1 && l.log == Serials([], [], [0])
    && LaneOf(l.h.epoch, Repair).completed == []
  }

  lemma StallStarts()
    ensures Stalled(Drive(Stall(0)), 0)
  {
    assert Stall(0)[..1] == [Open] && [Open][..0] == [];
    assert Drive([Open]) == Next(InitialLink, Open);
    assert Drive(Stall(0)) == Next(Next(InitialLink, Open), Send(Repair, Some([[0]])));
  }

  lemma {:induction false} StallShape(n: nat)
    ensures Stalled(Drive(Stall(n)), n)
    ensures forall k :: 0 <= k < |Stall(n)| ==> !Stall(n)[k].Restart?
  {
    if n == 0 {
      StallStarts();
    } else {
      StallShape(n - 1);
      StallGrows(n);
      RefusedSend(Drive(Stall(n - 1)), n - 1);
    }
  }

  lemma StallGrows(n: nat)
    requires n > 0
    ensures Stall(n) == Stall(n - 1) + [Send(Realtime, None)]
    ensures Drive(Stall(n)) == Next(Drive(Stall(n - 1)), Send(Realtime, None))
  {
    assert Stall(n)[..|Stall(n)| - 1] == Stall(n - 1);
  }

  lemma RefusedSend(l: Link, n: nat)
    requires Stalled(l, n)
    ensures Stalled(Next(l, Send(Realtime, None)), n + 1)
  {
  }

  /** After 65535 refused sends the next id is the one still waiting. */
  lemma StallReuses()
    ensures var moves := Stall(TURN - 1);
            Orderly(moves) && Drive(moves).next == 0 && Live(Drive(moves).h.tx, 0)
  {
    var moves := Stall(TURN - 1);
    var l := Drive(moves);
    StallShape(TURN - 1);
    DriveKeeps(moves);
    assert SerialsOf(l.log, Repair)[0] == 0;
    assert WaitingIn(LaneOf(l.h.epoch, Repair), SerialsOf(l.log, Repair), 0);
    assert Waiting(l, 0);
    LiveIff(l);
  }
}
