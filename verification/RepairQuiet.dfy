/**
 When every Ready is earned: as long as the room starts an attempt for a placement only
 after everything an earlier attempt for it had in flight is gone.
 */
module RepairQuiet {
  import opened Prelude
  import opened BoardLeg
  import opened RepairLog
  import opened RepairBoard
  import opened RepairProtocol
  import opened RepairCausality

  function Closes(events: seq<BoardEvent>, b: Binding): nat {
    multiset(events)[CarrierClosed(b)]
  }

  function Confirms(commands: seq<RoomCommand>, b: Binding): nat {
    multiset(commands)[Confirm(b)]
  }

  /** Closes of a placement on their way to the room. */
  function Pipe(sys: System, b: Binding): nat {
    Closes(sys.board.events, b) + Confirms(sys.room.commands, b)
  }

  predicate About(e: RoomEvent, b: Binding) {
    (e.Outbound? || e.Terminal? || e.Synchronized?) && e.binding == b
  }

  /** Nothing of an earlier attempt for the placement is on the carrier, in a queue or on its way to the room. */
  ghost predicate Quiet(sys: System, b: Binding) {
    && (Current(sys.board) == Some(b) ==> sys.board.s.close.None? && sys.board.s.awaiting.None?)
    && (forall e :: e in sys.room.events ==> !About(e, b))
    && Pipe(sys, b) == 0
  }

  /** The step does not start an attempt over the remains of another. */
  ghost predicate QuietStep(sys: System, step: Move) {
    step.RoomWorks? && sys.room.commands != [] && sys.room.commands[0].Start? ==>
        Quiet(sys, sys.room.commands[0].binding)
  }

  ghost predicate QuietRun(trusted: set<nat>, steps: seq<Move>) {
    forall i :: 0 <= i < |steps| ==> QuietStep(Reached(trusted, steps[..i]), steps[i])
  }

  // ---- The invariant ------------------------------------------------------------------------

  ghost predicate OwnTerminals(events: seq<RoomEvent>, a: Attempt) {
    forall e :: e in events && e.Terminal? && e.binding == a.binding ==> e.attempt == a.number
  }

  /** Behind a frame of the placement only the attempt's own terminals follow. */
  ghost predicate FramesFirst(events: seq<RoomEvent>, a: Attempt) {
    forall i :: 0 <= i < |events| && events[i] == Outbound(a.binding) ==> OwnTerminals(events[i + 1..], a)
  }

  ghost predicate NoSync(events: seq<RoomEvent>, b: Binding) {
    forall e :: e in events && e.Synchronized? ==> e.binding != b
  }

  /** The attempt, the carrier and at most one close pass the repair on like a baton. */
  ghost predicate Baton(events: seq<RoomEvent>, a: Attempt, pipe: nat, c: Carrier) {
    && pipe <= 1 && (pipe > 0 ==> c == Closed(a.binding, a.number))
    && (c.Carrying? && c.finisher.Some? ==> c.finisher.value == a.number)
    && (c.Carrying? ==> OwnTerminals(events, a))
    && FramesFirst(events, a) && NoSync(events, a.binding)
  }

  ghost predicate BatonInv(sys: System) {
    sys.room.attempt.Some? && Replay(sys.board.log).keyed == Some(sys.room.attempt.value.binding) ==>
      Baton(sys.room.events, sys.room.attempt.value, Pipe(sys, sys.room.attempt.value.binding),
            Replay(sys.board.log).carrier)
  }

  /** Synchronizations of the keyed placement were over their own close. */
  ghost predicate OwnAt(log: seq<Note>, y: nat) {
    y < |log| && log[y].RoomSynchronized? && Replay(log[..y]).keyed == Some(log[y].binding) ==>
      Replay(log[..y]).carrier == Closed(log[y].binding, log[y].attempt)
  }

  ghost predicate OwnSyncs(log: seq<Note>) {
    forall y :: 0 <= y < |log| ==> OwnAt(log, y)
  }

  lemma OwnSyncsGrow(log: seq<Note>, n: Note)
    requires OwnSyncs(log)
    requires n.RoomSynchronized? && Replay(log).keyed == Some(n.binding) ==>
             Replay(log).carrier == Closed(n.binding, n.attempt)
    ensures OwnSyncs(log + [n])
  {
    forall y | 0 <= y < |log + [n]| ensures OwnAt(log + [n], y) {
      if y < |log| {
        assert OwnAt(log, y);
        assert (log + [n])[..y] == log[..y];
      } else {
        assert (log + [n])[..y] == log;
      }
    }
  }

  lemma {:induction false} OwnSyncsExtend(log: seq<Note>, log': seq<Note>)
    requires OwnSyncs(log) && log <= log' && forall j :: |log| <= j < |log'| ==> !log'[j].RoomSynchronized?
    ensures OwnSyncs(log')
    decreases |log'|
  {
    if |log| < |log'| {
      var n := |log'| - 1;
      OwnSyncsExtend(log, log'[..n]);
      OwnSyncsGrow(log'[..n], log'[n]);
      assert log'[..n] + [log'[n]] == log';
    } else {
      assert log == log';
    }
  }

  // ---- What board steps do to the baton --------------------------------------------------------

  lemma BoundedCloses(events: seq<BoardEvent>, e: BoardEvent, b: Binding)
    ensures Closes(Bounded(events, e), b) <= Closes(events, b) + if e == CarrierClosed(b) then 1 else 0
  {
    if |events| == EVENT_CAPACITY {
      assert events == [events[0]] + events[1..];
    }
  }

  /**
   A board operation seen from a placement that stays keyed: its carrier and its closes in
   flight are as before, or a finished carrier just closed.
   */
  ghost predicate Passes(leg: Leg, leg': Leg, b: Binding) {
    Replay(leg.log).keyed == Some(b) && Replay(leg'.log).keyed == Some(b) ==>
      || (Replay(leg'.log).carrier == Replay(leg.log).carrier && Closes(leg'.events, b) <= Closes(leg.events, b))
      || (var c := Replay(leg.log).carrier;
          && c.Carrying? && c.finisher.Some? && Replay(leg'.log).carrier == Closed(b, c.finisher.value)
          && Closes(leg'.events, b) <= Closes(leg.events, b) + 1)
  }

  /** Passing and then publishing anything but a close still passes. */
  lemma PublishPasses(leg: Leg, leg': Leg, e: BoardEvent, b: Binding)
    requires Passes(leg, leg', b) && e != CarrierClosed(b)
    ensures Passes(leg, Publish(leg', e), b)
  {
    BoundedCloses(leg'.events, e, b);
  }

  lemma FailUnkeys(leg: Leg)
    ensures Replay(Fail(leg).log).keyed.None?
  {
    ReplayStep(leg.log, SessionEnded);
  }

  lemma ClosePasses(leg: Leg, answer: CloseAnswer, b: Binding)
    requires BoardInv(leg)
    ensures Passes(leg, MaybePublishClosed(leg, answer), b)
  {
    if leg.s.close.Some? && leg.s.finished && answer.confirmed {
      ReplayStep(leg.log, WasClosed(leg.s.close.value));
      BoundedCloses(leg.events, CarrierClosed(leg.s.close.value), b);
    }
  }

  lemma AckAndClosePasses(leg: Leg, answer: CloseAnswer, b: Binding)
    requires BoardInv(leg)
    ensures Passes(leg, MaybeSendAck(leg, answer).0, b) && Passes(leg, AckAndClose(leg, answer).0, b)
  {
    AckInv(leg, answer);
    ClosePasses(MaybeSendAck(leg, answer).0, answer, b);
  }

  lemma CapabilityPasses(leg: Leg, digest: nat, b: Binding)
    ensures Passes(leg, OnCapabilityReady(leg, digest).0, b)
  {
    if OnCapabilityReady(leg, digest).1 {
      var p := leg.s.provisioning.value.0;
      ReplayStep(leg.log, WasProvisioned(p));
      BoundedCloses(leg.events, Provisioned(p), b);
      BoundedCloses(Bounded(leg.events, Provisioned(p)), BoardLink(Repairing), b);
    }
  }

  lemma ProfilePasses(leg: Leg, profile: nat, verdict: ProfileVerdict, b: Binding)
    ensures Passes(leg, OnProfile(leg, profile, verdict).0, b)
  {
    var leg1 := Publish(leg, Notice);
    PublishPasses(leg, leg, Notice, b);
    PublishPasses(leg, leg1, BoardLink(Refused), b);
    PublishPasses(leg, Publish(leg1, BoardLink(Refused)), Notice, b);
    if BindingOf(leg1.s.(profile := Some(profile))).Some? {
      PublishPasses(leg, leg1, ProvisioningRequired(BindingOf(leg1.s.(profile := Some(profile))).value), b);
    }
  }

  lemma AnswerPasses(leg: Leg, wire: WireIn, b: Binding)
    requires BoardInv(leg) && leg.s.pending && FreshWire(leg, wire)
    ensures Passes(leg, OnAnswer(leg, wire).0, b)
  {
  }

  lemma WirePasses(leg: Leg, wire: WireIn, b: Binding)
    requires BoardInv(leg) && FreshWire(leg, wire)
    ensures Passes(leg, OnWire(leg, wire).0, b)
  {
    if leg.s.pending {
      AnswerPasses(leg, wire, b);
    } else if leg.s.codec.Some? {
      match wire
      case Profile(profile, verdict) => ProfilePasses(leg, profile, verdict, b);
      case RepairControl(answer) => AckAndClosePasses(leg, answer, b);
      case CapabilityReady(digest) => CapabilityPasses(leg, digest, b);
      case Realtime(valid) => PublishPasses(leg, leg, Notice, b);
      case RepairFrame(fits, answer) => FramePasses(leg, fits, answer, b);
      case _ =>
    }
  }

  lemma FramePasses(leg: Leg, fits: bool, answer: CloseAnswer, b: Binding)
    ensures Passes(leg, OnRepairFrame(leg, fits, answer).0, b)
  {
  }

  lemma ReactPasses(leg: Leg, e: HostEvent, b: Binding)
    requires BoardInv(leg) && FreshAnswer(leg, e)
    ensures Passes(leg, React(leg, e).0, b)
  {
    match e
    case ScanResult(address, accepted) =>
      PublishPasses(leg, leg, Notice, b);
      PublishPasses(leg, Publish(leg, Notice), BoardLink(Connecting), b);
    case Connected(wideEnough, auth) =>
      ReplayStep(leg.log, SessionEnded);
    case Disconnected(explained, scanAccepted) =>
      ReplayStep(leg.log, SessionEnded);
    case Info(hello, auth) => InfoPasses(leg, hello, auth, b);
    case Wire(wire) => WirePasses(leg, wire, b);
    case FragmentOnly =>
    case WriteComplete(id, answer) =>
      if leg.s.ackWrite == Some(id) {
        var leg1 := leg.(s := leg.s.(ackWrite := None));
        SessionKept(leg, leg1);
        ClosePasses(leg1, answer, b);
      }
    case HostNotice => PublishPasses(leg, leg, Notice, b);
    case HostFailure =>
  }

  lemma InfoPasses(leg: Leg, hello: Option<Hello>, auth: AuthAnswer, b: Binding)
    ensures Passes(leg, OnInfo(leg, hello, auth).0, b)
  {
    PublishPasses(leg, leg, BoardLink(Authenticating), b);
    PublishPasses(leg, leg, Notice, b);
  }

  lemma HostPasses(leg: Leg, e: HostEvent, b: Binding)
    requires BoardInv(leg) && FreshAnswer(leg, e)
    ensures Passes(leg, OnHost(leg, e), b)
  {
    ReactPasses(leg, e, b);
    FailUnkeys(React(leg, e).0);
  }

  lemma EditorPasses(leg: Leg, c: Command, b: Binding)
    requires FromEditor(c)
    ensures Passes(leg, OnCommand(leg, c).0, b)
  {
    match c
    case StartBoardScan(accepted) => PublishPasses(leg, leg, BoardLink(Discovering), b);
    case ConnectBoard(address, accepted) => ReplayStep(leg.log, SessionEnded);
    case DisconnectBoard(accepted) =>
    case TrustBoard(identity, auth, scanAccepted) => TrustPasses(leg, identity, auth, scanAccepted, b);
    case ForgetBoard(identity) => PublishPasses(leg, leg, Notice, b);
    case ConfigureBle(boards) => PublishPasses(leg, leg, Notice, b);
    case SendRoundTable(sent) =>
  }

  lemma AuthPasses(leg: Leg, leg': Leg, auth: AuthAnswer, b: Binding)
    requires Passes(leg, leg', b)
    ensures Passes(leg, BeginAuthentication(leg', auth).0, b)
  {
    PublishPasses(leg, leg'.(s := leg'.s.(pending := true)), BoardLink(Authenticating), b);
  }

  lemma ResumePasses(leg: Leg, leg': Leg, scanAccepted: bool, b: Binding)
    requires Passes(leg, leg', b)
    ensures Passes(leg, ResumeDesired(leg', scanAccepted), b)
  {
    PublishPasses(leg, leg'.(radio := leg'.radio.(scanRequested := true)), BoardLink(Discovering), b);
    PublishPasses(leg, leg', Notice, b);
  }

  lemma TrustPasses(leg: Leg, identity: nat, auth: AuthAnswer, scanAccepted: bool, b: Binding)
    ensures Passes(leg, OnTrust(leg, identity, auth, scanAccepted).0, b)
  {
    var leg0 := leg.(trusted := leg.trusted + {identity}, trustCandidate := None);
    PublishPasses(leg, leg0, Notice, b);
    AuthPasses(leg, leg, auth, b);
    AuthPasses(leg, Publish(leg0, Notice), auth, b);
    ResumePasses(leg, Publish(leg0, Notice), scanAccepted, b);
  }

  // ---- The baton over each kind of step ---------------------------------------------------------

  ghost predicate QuietInv(sys: System) {
    SystemInv(sys) && BatonInv(sys) && OwnSyncs(sys.board.log)
  }

  /** A placement the room has an attempt for cannot be keyed anew. */
  lemma KeyedStays(sys: System, log': seq<Note>)
    requires SystemInv(sys) && sys.room.attempt.Some? && LogInv(log') && sys.board.log <= log'
    requires Replay(log').keyed == Some(sys.room.attempt.value.binding)
    ensures Replay(sys.board.log).keyed == Replay(log').keyed
  {
    var b := sys.room.attempt.value.binding;
    var log := sys.board.log;
    StartedIsProvisioned(log, b, sys.room.attempt.value.number);
    var k0 :| 0 <= k0 < |log| && log[k0] == Keyed(b);
    var k := KeyedMeans(log');
    assert log'[k0] == Keyed(b);
    Unique(log', k, k0);
    StillKeyed(log', b, k, |log|);
    assert log'[..|log|] == log;
  }

  lemma {:induction false} StillKeyed(log: seq<Note>, b: Binding, k: nat, n: nat)
    requires LogInv(log) && KeyedAt(log, b, k) && k < n <= |log|
    ensures Replay(log[..n]).keyed == Some(b)
  {
    PrefixStep(log, n - 1);
    if k < n - 1 {
      StillKeyed(log, b, k, n - 1);
    }
  }

  /** A board operation with plain notes, the room untouched. */
  lemma PassBaton(sys: System, sys': System)
    requires QuietInv(sys) && SystemInv(sys') && sys'.room == sys.room && sys.board.log <= sys'.board.log
    requires forall j :: |sys.board.log| <= j < |sys'.board.log| ==> !sys'.board.log[j].RoomSynchronized?
    requires sys.room.attempt.Some? ==> Passes(sys.board, sys'.board, sys.room.attempt.value.binding)
    ensures QuietInv(sys')
  {
    OwnSyncsExtend(sys.board.log, sys'.board.log);
    if sys.room.attempt.Some? && Replay(sys'.board.log).keyed == Some(sys.room.attempt.value.binding) {
      KeyedStays(sys, sys'.board.log);
    }
  }

  lemma PlainHasNoSync(log: seq<Note>, log': seq<Note>)
    requires PlainGrowth(log, log')
    ensures forall j :: |log| <= j < |log'| ==> !log'[j].RoomSynchronized?
  {
  }

  lemma ExternalQuiet(sys: System, step: Move)
    requires QuietInv(sys) && Allowed(sys, step) && (step.EditorToBoard? || step.HostToBoard? || step.DeadlineExpires?)
    ensures QuietInv(Next(sys, step))
  {
    NextInv(sys, step);
    var sys' := Next(sys, step);
    match step {
      case EditorToBoard(c) =>
        EditorPlain(sys.board, c);
        if sys.room.attempt.Some? {
          EditorPasses(sys.board, c, sys.room.attempt.value.binding);
        }
      case HostToBoard(e) =>
        HostPlain(sys.board, e);
        if sys.room.attempt.Some? {
          HostPasses(sys.board, e, sys.room.attempt.value.binding);
        }
      case DeadlineExpires =>
        FailInv(sys.board);
        FailUnkeys(sys.board);
    }
    PlainHasNoSync(sys.board.log, sys'.board.log);
    PassBaton(sys, sys');
  }

  /** Commands that are not confirmations do not count. */
  lemma PassOnQuiet(sys: System, c: RoomCommand)
    requires QuietInv(sys) && CommandOk(sys.board.log, c) && !c.Confirm?
    ensures QuietInv(Ask(sys, c).0)
  {
    AskInv(sys, c);
    if sys.room.attempt.Some? {
      OtherCommandsDoNotCount(sys.room.commands, c, sys.room.attempt.value.binding);
    }
  }

  lemma AskQuiet(sys: System, c: RoomCommand)
    requires QuietInv(sys) && CommandOk(sys.board.log, c) && !c.Confirm?
    ensures QuietInv(HandRoom(sys, c).0)
  {
    PassOnQuiet(sys.(trace := sys.trace + [ToRoom(c)]), c);
  }

  lemma OtherCommandsDoNotCount(commands: seq<RoomCommand>, c: RoomCommand, b: Binding)
    ensures Confirms(commands + [c], b) == Confirms(commands, b) + if c == Confirm(b) then 1 else 0
  {
  }

  lemma AbortQuiet(sys: System, b: Binding)
    requires QuietInv(sys)
    ensures QuietInv(HandBoard(sys, AbortRepair(b)).0)
  {
    AbortInv(sys.board, b);
    PlainOrderInv(sys, AbortRepair(b));
    FailUnkeys(sys.board);
    PlainHasNoSync(sys.board.log, OnAbort(sys.board, b).0.log);
    PassBaton(sys, HandBoard(sys, AbortRepair(b)).0);
  }

  lemma FenceQuiet(sys: System, b: Binding)
    requires QuietInv(sys)
    ensures QuietInv(Fence(sys, b))
  {
    if sys.boardBinding == Some(b) {
      AskQuiet(sys, Abort(b));
      AbortQuiet(HandRoom(sys, Abort(b)).0, b);
    }
  }

  lemma RequestQuiet(sys: System)
    requires QuietInv(sys)
    ensures QuietInv(RequestProvisioning(sys))
  {
    if sys.boardBinding.Some? {
      AskQuiet(sys, Prepare(sys.boardBinding.value));
    }
  }

  // ---- Routing from the board ---------------------------------------------------------------------

  lemma FewerCloses(events: seq<BoardEvent>, b: Binding)
    requires events != []
    ensures Closes(events, b) == Closes(events[1..], b) + if events[0] == CarrierClosed(b) then 1 else 0
  {
    assert events == [events[0]] + events[1..];
  }

  /** Taking an event off the board's queue; a close taken leaves room for its confirmation. */
  lemma TakeQuiet(sys: System)
    requires QuietInv(sys)
    ensures var sys1 := sys.(board := Take(sys.board));
            && QuietInv(sys1)
            && forall b :: Pipe(sys1, b) + (if Polled(sys.board) == Some(CarrierClosed(b)) then 1 else 0)
                           <= Pipe(sys, b)
  {
    TakeInv(sys.board);
    var sys1 := sys.(board := Take(sys.board));
    BoardStepInv(sys, Take(sys.board));
    forall b ensures Pipe(sys1, b) + (if Polled(sys.board) == Some(CarrierClosed(b)) then 1 else 0) <= Pipe(sys, b) {
      if sys.board.dropped == 0 && sys.board.events != [] {
        FewerCloses(sys.board.events, b);
      }
    }
  }

  lemma ConfirmQuiet(sys: System, sys1: System, b: Binding)
    requires QuietInv(sys) && QuietInv(sys1) && sys1.room == sys.room && sys1.board.log == sys.board.log
    requires Pipe(sys1, b) + 1 <= Pipe(sys, b)
    ensures QuietInv(HandRoom(sys1, Confirm(b)).0)
  {
    AskInv(sys1, Confirm(b));
    if sys.room.attempt.Some? {
      OtherCommandsDoNotCount(sys.room.commands, Confirm(b), sys.room.attempt.value.binding);
    }
  }

  lemma RouteBoardQuiet(sys: System)
    requires QuietInv(sys) && Polled(sys.board).Some?
    ensures QuietInv(Next(sys, RouteFromBoard))
  {
    TakeInv(sys.board);
    TakeQuiet(sys);
    var sys1 := sys.(board := Take(sys.board));
    match Polled(sys.board).value
    case ProvisioningRequired(b) =>
      RequestQuiet(sys1.(boardBinding := Some(b), requested := None, trace := sys1.trace + [Announced(b)]));
    case Provisioned(b) =>
      AskQuiet(sys1, Start(b));
      FenceQuiet(HandRoom(sys1, Start(b)).0, b);
    case RepairInbound(b) =>
      AskQuiet(sys1, Observe(b));
      FenceQuiet(HandRoom(sys1, Observe(b)).0, b);
    case CarrierClosed(b) =>
      ConfirmQuiet(sys, sys1, b);
      FenceQuiet(HandRoom(sys1, Confirm(b)).0, b);
    case BoardLink(link) =>
      if sys.boardBinding.Some? {
        AskQuiet(sys1, Abort(sys.boardBinding.value));
      }
    case Notice =>
  }

  // ---- Routing from the room ------------------------------------------------------------------------

  lemma PopQuiet(sys: System)
    requires QuietInv(sys) && sys.room.events != []
    ensures QuietInv(sys.(room := Popped(sys.room)))
  {
    PopInv(sys.room, sys.board.log);
    if sys.room.attempt.Some? {
      PopFrames(sys.room.events, sys.room.attempt.value);
    }
  }

  lemma PopFrames(events: seq<RoomEvent>, a: Attempt)
    requires events != []
    ensures FramesFirst(events, a) ==> FramesFirst(events[1..], a)
  {
    if FramesFirst(events, a) {
      forall i | 0 <= i < |events[1..]| && events[1..][i] == Outbound(a.binding)
        ensures OwnTerminals(events[1..][i + 1..], a) {
        assert events[i + 1] == Outbound(a.binding);
        assert events[1..][i + 1..] == events[i + 2..];
      }
    }
  }

  /** A frame at the head means no close of its placement is on its way. */
  lemma FrameMeansNoPipe(sys: System, b: Binding)
    requires QuietInv(sys) && Outbound(b) in sys.room.events && AttemptFor(sys.room, b)
    requires Replay(sys.board.log).keyed == Some(b)
    ensures Pipe(sys, b) == 0
  {
    if Pipe(sys, b) > 0 {
      OwnCloseIsSpent(sys.board.log, b, sys.room.attempt.value.number);
    }
  }

  lemma OutboundQuiet(sys: System, b: Binding, a: BoardAnswers)
    requires QuietInv(sys) && sys.room.events != [] && sys.room.events[0] == Outbound(b)
    ensures QuietInv(HandBoard(sys.(room := Popped(sys.room)), SendFrame(b, a.fits, a.sent, a.close)).0)
  {
    var sys1 := sys.(room := Popped(sys.room));
    PopQuiet(sys);
    OutboundInv(sys1, sys.room, b, a);
    SendFrameInv(sys.board, b, a.fits, a.sent, a.close);
    var sys2 := HandBoard(sys1, SendFrame(b, a.fits, a.sent, a.close)).0;
    if sys2.board.log == sys.board.log {
      SameLogSendFrame(sys.board, b, a);
    } else {
      ReplayStep(sys.board.log, CarrierOpened(b));
      OwnSyncsGrow(sys.board.log, CarrierOpened(b));
      BoundedCloses(sys.board.events, BoardLink(Repairing), b);
      if AttemptFor(sys.room, b) {
        FrameMeansNoPipe(sys, b);
      }
    }
  }

  lemma SameLogSendFrame(leg: Leg, b: Binding, a: BoardAnswers)
    requires OnSendFrame(leg, b, a.fits, a.sent, a.close).0.log == leg.log
    ensures OnSendFrame(leg, b, a.fits, a.sent, a.close).0 == leg
  {
  }

  lemma FinishPasses(leg: Leg, b: Binding, m: nat, answer: CloseAnswer)
    requires BoardInv(leg) && RoomStarted(b, m) in leg.log && leg.s.close == Some(b)
    ensures var leg' := OnFinish(leg, b, m, answer).0;
            var c := Replay(leg.log).carrier;
            var finisher := if c.Carrying? && c.finisher.Some? then c.finisher.value else m;
            && leg.log <= leg'.log && (forall j :: |leg.log| <= j < |leg'.log| ==> !leg'.log[j].RoomSynchronized?)
            && c.Carrying? && Replay(leg.log).keyed == Some(b) && Replay(leg'.log).keyed == Some(b)
            && ((Replay(leg'.log).carrier == Carrying(b, Some(finisher))
                 && Closes(leg'.events, b) <= Closes(leg.events, b))
                || (Replay(leg'.log).carrier == Closed(b, finisher)
                    && Closes(leg'.events, b) <= Closes(leg.events, b) + 1))
  {
    MarkInv(leg, b, m);
    var leg1 := MarkFinished(leg, b, m);
    ReplayStep(leg.log, CarrierFinished(b, m));
    FinishLog(leg, b, m, answer);
    AckInv(leg1, answer);
    FinishedCarrier(leg, b, m);
    ClosesOnce(MaybeSendAck(leg1, answer).0, answer, b);
  }

  lemma FinishedCarrier(leg: Leg, b: Binding, m: nat)
    requires BoardInv(leg) && leg.s.close == Some(b)
    ensures var c := Replay(leg.log).carrier;
            var finisher := if c.Carrying? && c.finisher.Some? then c.finisher.value else m;
            c.Carrying? && Replay(MarkFinished(leg, b, m).log) == Seen(Some(b), Carrying(b, Some(finisher)))
  {
    ReplayStep(leg.log, CarrierFinished(b, m));
  }

  lemma ClosesOnce(leg: Leg, answer: CloseAnswer, b: Binding)
    requires BoardInv(leg) && leg.s.close == Some(b) && leg.s.finished
    ensures var leg' := MaybePublishClosed(leg, answer);
            var c := Replay(leg.log).carrier;
            && c.Carrying? && c.finisher.Some? && Replay(leg'.log).keyed == Replay(leg.log).keyed
            && (leg' == leg || (Replay(leg'.log).carrier == Closed(b, c.finisher.value)
                                && Closes(leg'.events, b) <= Closes(leg.events, b) + 1))
  {
    ReplayStep(leg.log, WasClosed(b));
    BoundedCloses(leg.events, CarrierClosed(b), b);
  }

  /** The attempt's own terminal moves the baton to the carrier. */
  lemma FinishBaton(events: seq<RoomEvent>, a: Attempt, pipe: nat, pipe': nat, c: Carrier, c': Carrier)
    requires Baton(events, a, pipe, c) && c.Carrying?
    requires (c' == Carrying(a.binding, Some(a.number)) && pipe' <= pipe)
             || (c' == Closed(a.binding, a.number) && pipe' <= pipe + 1)
    ensures Baton(events, a, pipe', c')
  {
  }

  lemma TerminalQuiet(sys: System, b: Binding, m: nat, a: BoardAnswers)
    requires QuietInv(sys) && sys.room.events != [] && sys.room.events[0] == Terminal(b, m)
    ensures QuietInv(HandBoard(sys.(room := Popped(sys.room)), FinishRepair(b, m, a.close)).0)
  {
    var sys1 := sys.(room := Popped(sys.room));
    PopQuiet(sys);
    TerminalInv(sys1, sys.room, b, m, a);
    assert RoomEventOk(sys.board.log, Terminal(b, m));
    if sys.board.s.close == Some(b) {
      TerminalPasses(sys, b, m, a);
    }
  }

  lemma TerminalPasses(sys: System, b: Binding, m: nat, a: BoardAnswers)
    requires QuietInv(sys) && sys.room.events != [] && sys.room.events[0] == Terminal(b, m)
    requires sys.board.s.close == Some(b)
    requires SystemInv(HandBoard(sys.(room := Popped(sys.room)), FinishRepair(b, m, a.close)).0)
    ensures QuietInv(HandBoard(sys.(room := Popped(sys.room)), FinishRepair(b, m, a.close)).0)
  {
    var sys1 := sys.(room := Popped(sys.room));
    PopQuiet(sys);
    assert RoomEventOk(sys.board.log, Terminal(b, m));
    var sys2 := HandBoard(sys1, FinishRepair(b, m, a.close)).0;
    FinishPasses(sys.board, b, m, a.close);
    OwnSyncsExtend(sys.board.log, sys2.board.log);
    if AttemptFor(sys.room, b) {
      FinishBaton(sys1.room.events, sys.room.attempt.value, Pipe(sys1, b), Pipe(sys2, b),
                  Replay(sys.board.log).carrier, Replay(sys2.board.log).carrier);
    }
  }

  lemma CompletionQuiet(sys: System, b: Binding, m: nat)
    requires QuietInv(sys) && sys.room.events != [] && sys.room.events[0] == Synchronized(b, m)
    ensures QuietInv(HandBoard(sys.(room := Popped(sys.room)), CompleteRepair(b, m)).0)
  {
    var sys1 := sys.(room := Popped(sys.room));
    PopQuiet(sys);
    CompletionInv(sys1, sys.room, b, m);
    ReplayStep(sys.board.log, BecameReady(b, m));
    OwnSyncsGrow(sys.board.log, BecameReady(b, m));
  }

  lemma BundleQuiet(sys: System, b: Binding, a: BoardAnswers)
    requires QuietInv(sys)
    ensures QuietInv(HandBoard(sys, SendBundle(b, a.receiver, a.digest, a.sent)).0)
  {
    BundleInv(sys.board, b, a.receiver, a.digest, a.sent);
    PlainOrderInv(sys, SendBundle(b, a.receiver, a.digest, a.sent));
  }

  lemma PlacementQuiet(sys: System, a: BoardAnswers)
    requires QuietInv(sys) && sys.room.events != [] && NamesPlacement(sys.room.events[0])
    ensures QuietInv(RoutePlacementEvent(sys.(room := Popped(sys.room)), sys.room.events[0], a))
  {
    var sys1 := sys.(room := Popped(sys.room));
    PopQuiet(sys);
    match sys.room.events[0]
    case ProvisioningFailed(b) =>
    case BundlePrepared(b) => BundleQuiet(sys1, b, a);
    case RepairFailed(b) => AbortQuiet(sys1, b);
    case Outbound(b) =>
      OutboundQuiet(sys, b, a);
      FenceQuiet(HandBoard(sys1, SendFrame(b, a.fits, a.sent, a.close)).0, b);
    case Terminal(b, m) =>
      TerminalQuiet(sys, b, m, a);
      FenceQuiet(HandBoard(sys1, FinishRepair(b, m, a.close)).0, b);
    case Synchronized(b, m) =>
      CompletionQuiet(sys, b, m);
      FenceQuiet(HandBoard(sys1, CompleteRepair(b, m)).0, b);
  }

  lemma RouteRoomQuiet(sys: System, a: BoardAnswers)
    requires QuietInv(sys) && sys.room.events != []
    ensures QuietInv(Next(sys, RouteFromRoom(a)))
  {
    var sys1 := sys.(room := Popped(sys.room));
    var e := sys.room.events[0];
    PopQuiet(sys);
    if NamesPlacement(e) {
      PlacementQuiet(sys, a);
    } else if e.RoomLink? {
      RequestQuiet(sys1.(roomReady := true, requested := None));
    } else {
      RequestQuiet(sys1.(requested := None));
    }
  }

  // ---- Room work ------------------------------------------------------------------------------------------

  /** Events an attempt may see appended. */
  predicate Harmless(e: RoomEvent, a: Attempt) {
    && (e.Terminal? && e.binding == a.binding ==> e.attempt == a.number)
    && (e.Synchronized? ==> e.binding != a.binding)
  }

  lemma AppendBaton(events: seq<RoomEvent>, a: Attempt, pipe: nat, c: Carrier, e: RoomEvent)
    requires Baton(events, a, pipe, c) && Harmless(e, a)
    ensures Baton(events + [e], a, pipe, c)
  {
    forall i | 0 <= i < |events + [e]| && (events + [e])[i] == Outbound(a.binding)
      ensures OwnTerminals((events + [e])[i + 1..], a) {
      if i < |events| {
        assert (events + [e])[i + 1..] == events[i + 1..] + [e];
      } else {
        assert (events + [e])[i + 1..] == [];
      }
    }
  }

  lemma {:induction false} EmitAllBaton(room: Room, events: seq<RoomEvent>, a: Attempt, pipe: nat, c: Carrier)
    requires Baton(room.events, a, pipe, c) && forall e :: e in events ==> Harmless(e, a)
    ensures Baton(EmitAll(room, events).events, a, pipe, c)
    decreases |events|
  {
    if events != [] {
      AppendBaton(room.events, a, pipe, c, events[0]);
      EmitAllBaton(Emit(room, events[0]), events[1..], a, pipe, c);
    }
  }

  lemma {:induction false} EmitFramesBaton(room: Room, b: Binding, n: nat, a: Attempt, pipe: nat, c: Carrier)
    requires Baton(room.events, a, pipe, c)
    ensures Baton(EmitFrames(room, b, n).0.events, a, pipe, c)
    decreases n
  {
    if n > 0 && |room.events| != ROOM_EVENT_CAPACITY {
      AppendBaton(room.events, a, pipe, c, Outbound(b));
      EmitFramesBaton(room.(events := room.events + [Outbound(b)]), b, n - 1, a, pipe, c);
    }
  }

  /** No frame and no synchronization of the placement is queued, and the carrier is not open. */
  ghost predicate Cleared(events: seq<RoomEvent>, b: Binding, pipe: nat, c: Carrier) {
    Outbound(b) !in events && NoSync(events, b) && pipe == 0 && !c.Carrying?
  }

  /** A new attempt over a cleared field has the baton. */
  lemma BeginBaton(room: Room, b: Binding, work: Work, pipe: nat, c: Carrier)
    requires Cleared(room.events, b, pipe, c) && BeginAttempt(room, b, work).1
    ensures var room' := BeginAttempt(room, b, work).0;
            && room'.attempt.Some? && room'.attempt.value.binding == b
            && Baton(room'.events, room'.attempt.value, pipe, c)
  {
    var a := Attempt(b, room.starts, work.terminal);
    assert Baton(room.events, a, pipe, c);
    EmitFramesBaton(room, b, work.frames, a, pipe, c);
    AppendBaton(EmitFrames(room, b, work.frames).0.events, a, pipe, c, Terminal(b, room.starts));
  }

  lemma FewerConfirms(commands: seq<RoomCommand>, b: Binding)
    requires commands != []
    ensures Confirms(commands, b) == Confirms(commands[1..], b) + if commands[0] == Confirm(b) then 1 else 0
  {
    assert commands == [commands[0]] + commands[1..];
  }

  /** What room work must show for the baton to be kept. */
  ghost predicate Keeps(room: Room, pipe: Binding -> nat, v: Seen) {
    room.attempt.Some? && v.keyed == Some(room.attempt.value.binding) ==>
      Baton(room.events, room.attempt.value, pipe(room.attempt.value.binding), v.carrier)
  }

  lemma IdleKeeps(room: Room, events: seq<RoomEvent>, pipe: Binding -> nat, v: Seen)
    requires Keeps(room, pipe, v) && forall e :: e in events ==> Idle(e)
    ensures Keeps(EmitAll(room, events), pipe, v)
  {
    EmitAllAttempt(room, events);
    if room.attempt.Some? && v.keyed == Some(room.attempt.value.binding) {
      EmitAllBaton(room, events, room.attempt.value, pipe(room.attempt.value.binding), v.carrier);
    }
  }

  lemma {:induction false} EmitAllAttempt(room: Room, events: seq<RoomEvent>)
    ensures EmitAll(room, events).attempt == room.attempt && EmitAll(room, events).starts == room.starts
    decreases |events|
  {
    if events != [] {
      EmitAllAttempt(Emit(room, events[0]), events[1..]);
    }
  }

  lemma EmitKeeps(room: Room, e: RoomEvent, pipe: Binding -> nat, v: Seen)
    requires Keeps(room, pipe, v) && Idle(e)
    ensures Keeps(Emit(room, e), pipe, v)
  {
    IdleKeeps(room, [e], pipe, v);
    assert EmitAll(room, [e]) == Emit(room, e) by {
      assert [e][1..] == [];
      assert EmitAll(Emit(room, e), []) == Emit(room, e);
    }
  }

  lemma FailKeeps(room: Room, b: Binding, pipe: Binding -> nat, v: Seen)
    requires Keeps(room, pipe, v)
    ensures Keeps(DropAttempt(room, b), pipe, v) && Keeps(FailAttempt(room, b), pipe, v)
  {
    EmitKeeps(DropAttempt(room, b), RepairFailed(b), pipe, v);
  }

  lemma StartKeeps(room: Room, b: Binding, work: Work, pipe: Binding -> nat, v: Seen)
    requires Keeps(room, pipe, v) && (v.keyed == Some(b) ==> Cleared(room.events, b, pipe(b), v.carrier))
    ensures Keeps(BeginAttempt(room, b, work).0, pipe, v)
  {
    if room.attempt.None? && v.keyed == Some(b) && BeginAttempt(room, b, work).1 {
      BeginBaton(room, b, work, pipe(b), v.carrier);
    } else if room.attempt.None? {
      FramesAttempt(room, b, work.frames);
    }
  }

  lemma {:induction false} FramesAttempt(room: Room, b: Binding, n: nat)
    ensures EmitFrames(room, b, n).0.attempt == room.attempt && EmitFrames(room, b, n).0.starts == room.starts
    decreases n
  {
    if n > 0 && |room.events| != ROOM_EVENT_CAPACITY {
      FramesAttempt(room.(events := room.events + [Outbound(b)]), b, n - 1);
    }
  }

  lemma DoStartKeeps(room: Room, b: Binding, work: Work, pipe: Binding -> nat, v: Seen)
    requires Keeps(room, pipe, v) && (v.keyed == Some(b) ==> Cleared(room.events, b, pipe(b), v.carrier))
    ensures Keeps(DoStart(room, b, work).0, pipe, v)
  {
    FailKeeps(room, b, pipe, v);
    StartKeeps(room, b, work, pipe, v);
    FailKeeps(BeginAttempt(room, b, work).0, b, pipe, v);
  }

  lemma DoObserveKeeps(room: Room, b: Binding, work: Work, pipe: Binding -> nat, v: Seen)
    requires Keeps(room, pipe, v)
    ensures Keeps(DoObserve(room, b, work), pipe, v)
  {
    FailKeeps(room, b, pipe, v);
    if room.active && AttemptFor(room, b) {
      var a := room.attempt.value;
      var frames := if a.terminal then 0 else work.frames;
      var (room1, ok) := EmitFrames(room, b, frames);
      FramesAttempt(room, b, frames);
      if v.keyed == Some(b) {
        EmitFramesBaton(room, b, frames, a, pipe(b), v.carrier);
      }
      FailKeeps(room1, b, pipe, v);
      if ok && work.accepted {
        var a' := a.(terminal := a.terminal || work.terminal);
        var room2 := room1.(attempt := Some(a'));
        TerminalFlagKeeps(room1, a', pipe, v);
        IdleKeeps(room2, [OtherEvent, OtherEvent], pipe, v);
        EmitAllAttempt(room2, [OtherEvent, OtherEvent]);
        var room3 := EmitAll(room2, [OtherEvent, OtherEvent]);
        if v.keyed == Some(b) {
          AppendBaton(room3.events, a', pipe(b), v.carrier, Terminal(b, a.number));
        }
      }
    }
  }

  lemma TerminalFlagKeeps(room: Room, a: Attempt, pipe: Binding -> nat, v: Seen)
    requires Keeps(room, pipe, v) && room.attempt.Some?
    requires a.binding == room.attempt.value.binding && a.number == room.attempt.value.number
    ensures Keeps(room.(attempt := Some(a)), pipe, v)
  {
    var was := room.attempt.value;
    if v.keyed == Some(a.binding) {
      forall i | 0 <= i < |room.events| && room.events[i] == Outbound(a.binding)
        ensures OwnTerminals(room.events[i + 1..], a) {
        assert OwnTerminals(room.events[i + 1..], was);
      }
    }
  }

  lemma DoConfirmKeeps(room: Room, b: Binding, work: Work, pipe: Binding -> nat, v: Seen)
    requires Keeps(room, pipe, v)
    requires v.keyed == Some(b) && AttemptFor(room, b) ==> Cleared(room.events, b, pipe(b), v.carrier)
    ensures Keeps(DoConfirm(room, b, work).0, pipe, v)
  {
    FailKeeps(room, b, pipe, v);
    if room.active && AttemptFor(room, b) {
      var room1 := room.(attempt := None);
      FailKeeps(room1, b, pipe, v);
      var quiet := [OtherEvent, OtherEvent, OtherEvent];
      var room2 := EmitAll(room1, quiet);
      EmitAllAttempt(room1, quiet);
      OnlyIdle(room1, quiet);
      if !(room.attempt.value.terminal && work.synchronized) {
        StartKeeps(room2, b, work, pipe, v);
        FailKeeps(BeginAttempt(room2, b, work).0, b, pipe, v);
      }
    }
  }

  lemma {:induction false} OnlyIdle(room: Room, events: seq<RoomEvent>)
    requires forall e :: e in events ==> Idle(e)
    ensures forall e :: e in EmitAll(room, events).events && !Idle(e) ==> e in room.events
    decreases |events|
  {
    if events != [] {
      assert Idle(events[0]);
      OnlyIdle(Emit(room, events[0]), events[1..]);
    }
  }

  lemma DoJoinKeeps(room: Room, sameRoom: bool, joined: bool, pipe: Binding -> nat, v: Seen)
    requires Keeps(room, pipe, v)
    ensures Keeps(DoJoin(room, sameRoom, joined), pipe, v)
  {
    IdleKeeps(room, [RoomSelected, RoomLink(true)], pipe, v);
    var room0 := room.(active := false, attempt := None);
    var quiet := [OtherEvent, OtherEvent, RoomLink(false)];
    EmitAllAttempt(room0, quiet);
    EmitAllAttempt(EmitAll(room0, quiet).(active := true), [OtherEvent, OtherEvent, RoomSelected, RoomLink(true)]);
    EmitAllAttempt(EmitAll(room0, quiet), [RoomLink(false), OtherEvent]);
  }

  lemma PerformKeeps(room: Room, c: RoomCommand, work: Work, pipe: Binding -> nat, v: Seen)
    requires Keeps(room, pipe, v)
    requires c.Start? && v.keyed == Some(c.binding) ==> Cleared(room.events, c.binding, pipe(c.binding), v.carrier)
    requires c.Confirm? && v.keyed == Some(c.binding) && AttemptFor(room, c.binding) ==>
               Cleared(room.events, c.binding, pipe(c.binding), v.carrier)
    ensures Keeps(Perform(room, c, work).0, pipe, v)
  {
    match c
    case Prepare(b) =>
      EmitKeeps(room, if room.active && work.accepted then BundlePrepared(b) else ProvisioningFailed(b), pipe, v);
    case Start(b) => DoStartKeeps(room, b, work, pipe, v);
    case Observe(b) => DoObserveKeeps(room, b, work, pipe, v);
    case Confirm(b) => DoConfirmKeeps(room, b, work, pipe, v);
    case Abort(b) => FailKeeps(room, b, pipe, v);
    case Join => DoJoinKeeps(room, work.sameRoom, work.joined, pipe, v);
    case Leave => EmitAllAttempt(room.(active := false, attempt := None), [OtherEvent, OtherEvent, RoomLink(false)]);
    case OtherCommand => EmitKeeps(room, OtherEvent, pipe, v);
  }

  lemma {:induction false} EmitAllCommands(room: Room, events: seq<RoomEvent>)
    ensures EmitAll(room, events).commands == room.commands
    decreases |events|
  {
    if events != [] {
      EmitAllCommands(Emit(room, events[0]), events[1..]);
    }
  }

  lemma {:induction false} FramesCommands(room: Room, b: Binding, n: nat)
    ensures EmitFrames(room, b, n).0.commands == room.commands
    decreases n
  {
    if n > 0 && |room.events| != ROOM_EVENT_CAPACITY {
      FramesCommands(room.(events := room.events + [Outbound(b)]), b, n - 1);
    }
  }

  lemma PerformCommands(room: Room, c: RoomCommand, work: Work)
    ensures Perform(room, c, work).0.commands == room.commands
  {
    match c
    case Start(b) => FramesCommands(room, b, work.frames);
    case Observe(b) =>
      if room.active && AttemptFor(room, b) {
        var frames := if room.attempt.value.terminal then 0 else work.frames;
        FramesCommands(room, b, frames);
        var a := room.attempt.value;
        var room1 := EmitFrames(room, b, frames).0;
        EmitAllCommands(room1.(attempt := Some(a.(terminal := a.terminal || work.terminal))), [OtherEvent, OtherEvent]);
      }
    case Confirm(b) =>
      var quiet := [OtherEvent, OtherEvent, OtherEvent];
      EmitAllCommands(room.(attempt := None), quiet);
      FramesCommands(EmitAll(room.(attempt := None), quiet), b, work.frames);
    case Join =>
      EmitAllCommands(room, [RoomSelected, RoomLink(true)]);
      var room0 := room.(active := false, attempt := None);
      var quiet := [OtherEvent, OtherEvent, RoomLink(false)];
      EmitAllCommands(room0, quiet);
      EmitAllCommands(EmitAll(room0, quiet).(active := true), [OtherEvent, OtherEvent, RoomSelected, RoomLink(true)]);
      EmitAllCommands(EmitAll(room0, quiet), [RoomLink(false), OtherEvent]);
    case Leave => EmitAllCommands(room.(active := false, attempt := None), [OtherEvent, OtherEvent, RoomLink(false)]);
    case _ =>
  }

  /** A confirmation at the head finds the field clear: its attempt finished the carrier that closed. */
  lemma ConfirmClears(sys: System, b: Binding)
    requires QuietInv(sys) && sys.room.commands != [] && sys.room.commands[0] == Confirm(b)
    requires AttemptFor(sys.room, b) && Replay(sys.board.log).keyed == Some(b)
    ensures Replay(sys.board.log).carrier == Closed(b, sys.room.attempt.value.number)
    ensures Cleared(sys.room.events, b, Pipe(sys, b) - 1, Replay(sys.board.log).carrier)
  {
    FewerConfirms(sys.room.commands, b);
    OwnCloseIsSpent(sys.board.log, b, sys.room.attempt.value.number);
  }

  lemma StartIsCleared(sys: System, b: Binding)
    requires SystemInv(sys) && Quiet(sys, b) && Replay(sys.board.log).keyed == Some(b)
    ensures Cleared(sys.room.events, b, Pipe(sys, b), Replay(sys.board.log).carrier)
  {
    forall e | e in sys.room.events ensures !About(e, b) {
    }
    assert About(Outbound(b), b);
  }

  /** The closes still on their way once the head command is taken. */
  function PipeBehind(sys: System): Binding -> nat
    requires sys.room.commands != []
  {
    (b: Binding) => Closes(sys.board.events, b) + Confirms(sys.room.commands[1..], b)
  }

  lemma WorkKeeps(sys: System, work: Work)
    requires QuietInv(sys) && QuietStep(sys, RoomWorks(work)) && sys.room.commands != []
    ensures var room := sys.room.(commands := sys.room.commands[1..]);
            Keeps(Perform(room, sys.room.commands[0], work).0, PipeBehind(sys), Replay(sys.board.log))
  {
    var c := sys.room.commands[0];
    var room := sys.room.(commands := sys.room.commands[1..]);
    var v := Replay(sys.board.log);
    if sys.room.attempt.Some? {
      FewerConfirms(sys.room.commands, sys.room.attempt.value.binding);
    }
    if c.Start? && v.keyed == Some(c.binding) {
      StartIsCleared(sys, c.binding);
      FewerConfirms(sys.room.commands, c.binding);
    }
    if c.Confirm? && v.keyed == Some(c.binding) && AttemptFor(sys.room, c.binding) {
      ConfirmClears(sys, c.binding);
      FewerConfirms(sys.room.commands, c.binding);
    }
    PerformKeeps(room, c, work, PipeBehind(sys), v);
  }

  lemma WorkQuiet(sys: System, work: Work)
    requires QuietInv(sys) && QuietStep(sys, RoomWorks(work)) && sys.room.commands != []
    ensures QuietInv(Next(sys, RoomWorks(work)))
  {
    RoomWorksInv(sys, work);
    var c := sys.room.commands[0];
    var room := sys.room.(commands := sys.room.commands[1..]);
    WorkKeeps(sys, work);
    PerformCommands(room, c, work);
    if c.Confirm? && Replay(sys.board.log).keyed == Some(c.binding) && AttemptFor(sys.room, c.binding) {
      ConfirmClears(sys, c.binding);
    }
    PerformNotes(room, c, work, sys.board.log);
  }

  lemma NotesShape(room: Room, c: RoomCommand, work: Work)
    ensures var notes := Perform(room, c, work).1;
            || notes == []
            || (|notes| == 1 && notes[0].RoomStarted?)
            || (c.Confirm? && AttemptFor(room, c.binding)
                && notes == [RoomSynchronized(c.binding, room.attempt.value.number)])
  {
  }

  /** The note room work writes: over what replay, and whose synchronization. */
  lemma PerformNotes(room: Room, c: RoomCommand, work: Work, log: seq<Note>)
    requires OwnSyncs(log)
    requires c.Confirm? && Replay(log).keyed == Some(c.binding) && AttemptFor(room, c.binding) ==>
               Replay(log).carrier == Closed(c.binding, room.attempt.value.number)
    ensures var notes := Perform(room, c, work).1;
            OwnSyncs(log + notes) && Replay(log + notes) == Replay(log)
  {
    var notes := Perform(room, c, work).1;
    NotesShape(room, c, work);
    if notes == [] {
      assert log + notes == log;
    } else {
      OneNote(log, notes[0]);
      assert notes == [notes[0]];
    }
  }

  lemma OneNote(log: seq<Note>, n: Note)
    requires OwnSyncs(log) && (n.RoomStarted? || n.RoomSynchronized?)
    requires n.RoomSynchronized? && Replay(log).keyed == Some(n.binding) ==>
             Replay(log).carrier == Closed(n.binding, n.attempt)
    ensures OwnSyncs(log + [n]) && Replay(log + [n]) == Replay(log)
  {
    ReplayStep(log, n);
    OwnSyncsGrow(log, n);
  }

  // ---- Runs ------------------------------------------------------------------------------------------------

  lemma NextQuiet(sys: System, step: Move)
    requires QuietInv(sys) && Allowed(sys, step) && QuietStep(sys, step)
    ensures QuietInv(Next(sys, step))
  {
    NextInv(sys, step);
    match step
    case EditorToBoard(_) => ExternalQuiet(sys, step);
    case HostToBoard(_) => ExternalQuiet(sys, step);
    case DeadlineExpires => ExternalQuiet(sys, step);
    case EditorToRoom(c) => PassOnQuiet(sys, c);
    case RoomWorks(work) =>
      if sys.room.commands != [] {
        WorkQuiet(sys, work);
      }
    case RoomStops =>
      EmitAllAttempt(sys.room.(active := false, attempt := None),
                     [RoomLink(false), OtherEvent, OtherEvent, OtherEvent]);
    case WorkerDies =>
      EmitAllAttempt(sys.room.(alive := false, active := false, attempt := None, commands := []),
                     [OtherEvent, OtherEvent, RoomLink(false)]);
    case RoomSpontaneous(e) =>
      EmitKeeps(sys.room, e, (b: Binding) => Pipe(sys, b), Replay(sys.board.log));
    case RouteFromRoom(a) =>
      if sys.room.events != [] {
        RouteRoomQuiet(sys, a);
      }
    case RouteFromBoard =>
      if Polled(sys.board).Some? {
        RouteBoardQuiet(sys);
      }
  }

  lemma {:induction false} RunQuiet(trusted: set<nat>, steps: seq<Move>)
    requires AllowedRun(trusted, steps) && QuietRun(trusted, steps)
    ensures QuietInv(Reached(trusted, steps))
  {
    if steps != [] {
      var n := |steps| - 1;
      PrefixAllowed(trusted, steps, n);
      assert QuietRun(trusted, steps[..n]) by {
        forall i | 0 <= i < n ensures QuietStep(Reached(trusted, steps[..n][..i]), steps[..n][i]) {
          assert steps[..n][..i] == steps[..i];
        }
      }
      RunQuiet(trusted, steps[..n]);
      assert AllowedAt(trusted, steps, n);
      NextQuiet(Reached(trusted, steps[..n]), steps[n]);
    }
  }

  /**
   In every run in which the room starts no attempt over the remains of an earlier one for
   the same placement, every Ready is earned: keyed, provisioned, one attempt started, the
   carrier finished by its terminal, that carrier closed, that attempt synchronized.
   */
  lemma EveryReadyIsEarned(trusted: set<nat>, steps: seq<Move>, i: nat)
    requires AllowedRun(trusted, steps) && QuietRun(trusted, steps)
    requires i < |Reached(trusted, steps).board.log| && Reached(trusted, steps).board.log[i].BecameReady?
    ensures Earned(Reached(trusted, steps).board.log, i)
  {
    RunQuiet(trusted, steps);
    var log := Reached(trusted, steps).board.log;
    var b := log[i].binding;
    var y := ReadyAnswers(log, i);
    KeyedThroughout(log, i, y);
    assert OwnAt(log, y);
    EarnedIff(log, i, y);
  }

  /** The placement that became Ready was keyed all along since its attempt was synchronized. */
  lemma KeyedThroughout(log: seq<Note>, i: nat, y: nat)
    requires LogInv(log) && i < |log| && log[i].BecameReady? && y < i
             && log[y] == RoomSynchronized(log[i].binding, log[i].attempt)
    ensures Replay(log[..y]).keyed == Some(log[i].binding)
  {
    var b, a := log[i].binding, log[i].attempt;
    PrefixStep(log, i);
    LogPrefix(log, i);
    var k := KeyedMeans(log[..i]);
    assert LawfulAt(log, y);
    LogPrefix(log, y);
    StartedIsProvisioned(log[..y], b, a);
    var k0 :| 0 <= k0 < y && log[..y][k0] == Keyed(b);
    assert log[..i][k0] == Keyed(b);
    Unique(log[..i], k, k0);
    StillKeyed(log[..i], b, k, y);
    assert log[..i][..y] == log[..y];
  }
}
