/** Every operation of the board leg keeps its log true: what is written down is what happened. */
module RepairBoard {
  import opened Prelude
  import opened BoardLeg
  import opened RepairLog

  ghost predicate CarrierMatches(s: Session, c: Carrier) {
    match c
    case Absent => s.close.None? && s.awaiting.None?
    case Carrying(b, finisher) => s.close == Some(b) && s.awaiting.None? && (s.finished <==> finisher.Some?)
    case Closed(b, _) => s.close.None? && s.awaiting == Some(b)
  }

  /** The session is the one the log tells of. */
  ghost predicate Recorded(s: Session, v: Seen) {
    BindingOf(s) == v.keyed && CarrierMatches(s, v.carrier)
  }

  /** An event in flight only tells of what the log already records. */
  ghost predicate EventOk(log: seq<Note>, e: BoardEvent) {
    match e
    case ProvisioningRequired(b) => Keyed(b) in log
    case Provisioned(b) => WasProvisioned(b) in log
    case _ => true
  }

  ghost predicate EventsOk(events: seq<BoardEvent>, log: seq<Note>) {
    forall e :: e in events ==> EventOk(log, e)
  }

  ghost predicate BoardInv(leg: Leg) {
    && LegInv(leg) && LogInv(leg.log) && Recorded(leg.s, Replay(leg.log)) && EventsOk(leg.events, leg.log)
  }

  /** Notes the board leg writes on its own, outside the commands that move a carrier. */
  predicate Plain(n: Note) {
    n.Keyed? || n == SessionEnded || n.WasProvisioned? || n.WasClosed?
  }

  /** The log grew by plain notes only. */
  ghost predicate PlainGrowth(log: seq<Note>, log': seq<Note>) {
    log <= log' && forall j :: |log| <= j < |log'| ==> Plain(log'[j])
  }

  lemma EventsGrow(events: seq<BoardEvent>, log: seq<Note>, n: Note)
    requires EventsOk(events, log)
    ensures EventsOk(events, log + [n])
  {
    forall e | e in events ensures EventOk(log + [n], e) {
      assert EventOk(log, e);
    }
  }

  /** A new note over a matching session. */
  lemma NoteInv(leg: Leg, s: Session, n: Note)
    requires LogInv(leg.log) && EventsOk(leg.events, leg.log)
    requires Lawful(leg.log, n) && SessionInv(s) && Recorded(s, See(Replay(leg.log), n))
    ensures BoardInv(leg.(s := s, log := leg.log + [n]))
  {
    LogGrows(leg.log, n);
    EventsGrow(leg.events, leg.log, n);
  }

  lemma PublishInv(leg: Leg, e: BoardEvent)
    requires BoardInv(leg) && EventOk(leg.log, e)
    ensures BoardInv(Publish(leg, e))
  {
    forall x | x in Publish(leg, e).events ensures EventOk(leg.log, x) {
      assert x == e || x in leg.events;
    }
  }

  /** Changing the session without touching placement or carrier. */
  lemma SessionKept(leg: Leg, leg': Leg)
    requires BoardInv(leg) && LegInv(leg') && leg'.log == leg.log && leg'.events == leg.events
    requires BindingOf(leg'.s) == BindingOf(leg.s)
    requires leg'.s.close == leg.s.close && leg'.s.finished == leg.s.finished && leg'.s.awaiting == leg.s.awaiting
    ensures BoardInv(leg')
  {
  }

  lemma EndInv(leg: Leg, hello: Option<Hello>)
    requires LogInv(leg.log) && EventsOk(leg.events, leg.log)
    ensures BoardInv(EndSession(leg, hello))
  {
    NoteInv(leg, NoSession.(hello := hello), SessionEnded);
  }

  lemma FailInv(leg: Leg)
    requires LogInv(leg.log) && EventsOk(leg.events, leg.log)
    ensures BoardInv(Fail(leg)) && PlainGrowth(leg.log, Fail(leg).log)
  {
    var leg1 := leg.(radio := Radio(None, false, false, false));
    EndInv(leg1, leg.s.hello);
    var leg2 := EndSession(leg1, leg.s.hello);
    PublishInv(leg2, BoardLink(Failed));
    PublishInv(Publish(leg2, BoardLink(Failed)), Notice);
  }

  lemma AuthInv(leg: Leg, auth: AuthAnswer)
    requires BoardInv(leg) && LegInv(BeginAuthentication(leg, auth).0)
    ensures BoardInv(BeginAuthentication(leg, auth).0)
  {
    var leg1 := leg.(s := leg.s.(pending := true));
    if LegInv(leg1) {
      SessionKept(leg, leg1);
      PublishInv(leg1, BoardLink(Authenticating));
    }
  }

  lemma ContinueInv(leg: Leg, hello: Hello, auth: AuthAnswer)
    requires BoardInv(leg) && leg.s.codec.None?
    ensures BoardInv(ContinueAfterHello(leg, hello, auth).0)
  {
    ContinueKeeps(leg, hello, auth);
    if hello.identity in leg.trusted {
      AuthInv(leg.(trustCandidate := None), auth);
    } else {
      PublishInv(leg.(trustCandidate := Some(hello.identity)), Notice);
    }
  }

  // ---- The carrier ----------------------------------------------------------------

  lemma CloseInv(leg: Leg, answer: CloseAnswer)
    requires BoardInv(leg)
    ensures BoardInv(MaybePublishClosed(leg, answer))
  {
    if leg.s.close.Some? && leg.s.finished && answer.confirmed {
      var b := leg.s.close.value;
      var s := leg.s.(close := None, finished := false, ackWrite := None, awaiting := Some(b));
      NoteInv(leg, s, WasClosed(b));
      var leg1 := leg.(s := s, log := leg.log + [WasClosed(b)]);
      PublishInv(leg1, CarrierClosed(b));
      assert MaybePublishClosed(leg, answer) == Publish(leg1, CarrierClosed(b));
    }
  }

  lemma AckInv(leg: Leg, answer: CloseAnswer)
    requires BoardInv(leg)
    ensures BoardInv(MaybeSendAck(leg, answer).0)
  {
    AckAndCloseKeeps(leg, answer);
    SessionKept(leg, MaybeSendAck(leg, answer).0);
  }

  lemma AckAndCloseInv(leg: Leg, answer: CloseAnswer)
    requires BoardInv(leg)
    ensures BoardInv(AckAndClose(leg, answer).0)
  {
    AckInv(leg, answer);
    CloseInv(MaybeSendAck(leg, answer).0, answer);
  }

  lemma SendFrameInv(leg: Leg, b: Binding, fits: bool, sent: bool, answer: CloseAnswer)
    requires BoardInv(leg)
    ensures var leg' := OnSendFrame(leg, b, fits, sent, answer).0;
            && BoardInv(leg')
            && (leg'.log == leg.log || (Replay(leg.log).keyed == Some(b) && leg'.log == leg.log + [CarrierOpened(b)]))
  {
    if Current(leg) == Some(b) && fits && leg.s.close.None? {
      var s := leg.s.(awaiting := None, close := Some(b), finished := false, deadline := true);
      NoteInv(leg, s, CarrierOpened(b));
      var leg1 := leg.(s := s, log := leg.log + [CarrierOpened(b)]);
      PublishInv(leg1, BoardLink(Repairing));
      assert OpenCarrier(leg, b) == Publish(leg1, BoardLink(Repairing));
    }
  }

  lemma MarkInv(leg: Leg, b: Binding, attempt: nat)
    requires BoardInv(leg) && leg.s.close == Some(b) && RoomStarted(b, attempt) in leg.log
    ensures BoardInv(MarkFinished(leg, b, attempt))
  {
    if !leg.s.finished {
      NoteInv(leg, leg.s.(finished := true), CarrierFinished(b, attempt));
    }
  }

  lemma FinishInv(leg: Leg, b: Binding, attempt: nat, answer: CloseAnswer)
    requires BoardInv(leg) && RoomStarted(b, attempt) in leg.log
    ensures BoardInv(OnFinish(leg, b, attempt, answer).0)
  {
    if leg.s.close == Some(b) {
      MarkInv(leg, b, attempt);
      AckAndCloseInv(MarkFinished(leg, b, attempt), answer);
    }
  }

  lemma CompleteInv(leg: Leg, b: Binding, attempt: nat)
    requires BoardInv(leg) && RoomSynchronized(b, attempt) in leg.log
    requires Replay(leg.log).keyed == Some(b) ==> Undisturbed(leg.log, b, attempt)
    ensures BoardInv(OnComplete(leg, b, attempt).0)
  {
    if Current(leg) == Some(b) && leg.s.awaiting == Some(b) {
      var s := leg.s.(awaiting := None, deadline := false);
      NoteInv(leg, s, BecameReady(b, attempt));
      var leg1 := leg.(s := s, log := leg.log + [BecameReady(b, attempt)]);
      PublishInv(leg1, BoardLink(Ready));
      assert OnComplete(leg, b, attempt).0 == Publish(leg1, BoardLink(Ready));
    }
  }

  lemma AbortInv(leg: Leg, b: Binding)
    requires BoardInv(leg)
    ensures BoardInv(OnAbort(leg, b).0) && PlainGrowth(leg.log, OnAbort(leg, b).0.log)
  {
    FailInv(leg);
  }

  lemma BundleInv(leg: Leg, b: Binding, receiver: nat, digest: nat, sent: bool)
    requires BoardInv(leg)
    ensures BoardInv(OnBundle(leg, b, receiver, digest, sent).0)
    ensures OnBundle(leg, b, receiver, digest, sent).0.log == leg.log
  {
    SessionKept(leg, OnBundle(leg, b, receiver, digest, sent).0);
  }

  // ---- Messages from the board ------------------------------------------------------

  lemma ProfileInv(leg: Leg, profile: nat, verdict: ProfileVerdict)
    requires BoardInv(leg) && leg.s.codec.Some?
    ensures BoardInv(OnProfile(leg, profile, verdict).0)
  {
    if leg.s.profile.None? {
      var leg1 := Publish(leg, Notice);
      PublishInv(leg, Notice);
      match verdict
      case RefusedProfile =>
        PublishInv(leg1, BoardLink(Refused));
        PublishInv(Publish(leg1, BoardLink(Refused)), Notice);
      case NegotiationFailed =>
      case Agreed =>
        var leg2 := leg1.(s := leg1.s.(profile := Some(profile)));
        SessionKept(leg1, leg2);
        var k := KeyedMeans(leg.log);
        PublishInv(leg2, ProvisioningRequired(Current(leg2).value));
    }
  }

  lemma CapabilityReadyInv(leg: Leg, digest: nat)
    requires BoardInv(leg)
    ensures BoardInv(OnCapabilityReady(leg, digest).0)
  {
    if OnCapabilityReady(leg, digest).1 {
      var b := leg.s.provisioning.value.0;
      var s := leg.s.(provisioning := None);
      NoteInv(leg, s, WasProvisioned(b));
      var leg1 := leg.(s := s, log := leg.log + [WasProvisioned(b)]);
      PublishInv(leg1, Provisioned(b));
      PublishInv(Publish(leg1, Provisioned(b)), BoardLink(Repairing));
      assert OnCapabilityReady(leg, digest).0 == Publish(Publish(leg1, Provisioned(b)), BoardLink(Repairing));
    }
  }

  /** The placement an answer to the current offer would key. */
  function KeyedBy(leg: Leg, wire: WireIn): Option<Binding> {
    if leg.s.pending && leg.s.hello.Some? && wire.Answer? && wire.valid then
      Some(Binding(leg.s.hello.value.identity, leg.s.hello.value.boot, wire.session))
    else None
  }

  ghost predicate FreshWire(leg: Leg, wire: WireIn) {
    KeyedBy(leg, wire).Some? ==> Keyed(KeyedBy(leg, wire).value) !in leg.log
  }

  lemma AnswerInv(leg: Leg, wire: WireIn)
    requires BoardInv(leg) && leg.s.pending && FreshWire(leg, wire)
    ensures BoardInv(OnAnswer(leg, wire).0)
  {
    var leg1 := leg.(s := leg.s.(pending := false));
    SessionKept(leg, leg1);
    if KeyedBy(leg, wire).Some? {
      var b := KeyedBy(leg, wire).value;
      var s := leg1.s.(codec := Some(wire.session));
      NoteInv(leg1, s, Keyed(b));
      var leg2 := leg1.(s := s, log := leg.log + [Keyed(b)]);
      PublishInv(leg2, BoardLink(Repairing));
      assert OnAnswer(leg, wire).0 == Publish(leg2, BoardLink(Repairing));
    }
  }

  lemma RepairFrameInv(leg: Leg, fits: bool, answer: CloseAnswer)
    requires BoardInv(leg)
    ensures BoardInv(OnRepairFrame(leg, fits, answer).0)
  {
    var b := Current(leg);
    if b.Some? && |leg.events| < EVENT_CAPACITY {
      PublishInv(leg, RepairInbound(b.value));
      AckInv(leg.(events := leg.events + [RepairInbound(b.value)]), answer);
    }
  }

  lemma WireInv(leg: Leg, wire: WireIn)
    requires BoardInv(leg) && FreshWire(leg, wire)
    ensures BoardInv(OnWire(leg, wire).0)
  {
    if leg.s.pending {
      AnswerInv(leg, wire);
    } else if leg.s.codec.Some? {
      match wire
      case Profile(profile, verdict) => ProfileInv(leg, profile, verdict);
      case RepairControl(answer) => AckAndCloseInv(leg, answer);
      case CapabilityReady(digest) => CapabilityReadyInv(leg, digest);
      case Realtime(valid) => PublishInv(leg, Notice);
      case RepairFrame(fits, answer) => RepairFrameInv(leg, fits, answer);
      case _ =>
    }
  }

  // ---- Platform events --------------------------------------------------------------

  lemma ConnectedInv(leg: Leg, wideEnough: bool, auth: AuthAnswer)
    requires BoardInv(leg)
    ensures BoardInv(OnConnected(leg, wideEnough, auth).0)
  {
    var early := leg.s.hello;
    EndInv(leg, early);
    var leg1 := EndSession(leg, early).(radio := Radio(leg.radio.desired, false, false, true));
    assert BoardInv(leg1);
    PublishInv(leg1, BoardLink(Authenticating));
    if wideEnough && early.Some? {
      ContinueInv(Publish(leg1, BoardLink(Authenticating)), early.value, auth);
    }
  }

  lemma ResumeInv(leg: Leg, scanAccepted: bool)
    requires BoardInv(leg)
    ensures BoardInv(ResumeDesired(leg, scanAccepted))
  {
    PublishInv(leg.(radio := leg.radio.(scanRequested := true)), BoardLink(Discovering));
    PublishInv(leg, Notice);
  }

  lemma DisconnectedInv(leg: Leg, explained: bool, scanAccepted: bool)
    requires BoardInv(leg)
    ensures BoardInv(OnDisconnected(leg, explained, scanAccepted))
  {
    var leg0 := leg.(radio := Radio(leg.radio.desired, false, false, false));
    EndInv(leg0, None);
    PublishInv(EndSession(leg0, None), BoardLink(Offline));
    var leg1 := Publish(EndSession(leg0, None), BoardLink(Offline));
    PublishInv(leg1, Notice);
    ResumeInv(if explained then Publish(leg1, Notice) else leg1, scanAccepted);
  }

  lemma ScanResultInv(leg: Leg, address: nat, accepted: bool)
    requires BoardInv(leg)
    ensures BoardInv(OnScanResult(leg, address, accepted).0)
  {
    PublishInv(leg, Notice);
    var leg2 := Publish(leg, Notice).(radio := leg.radio.(scanRequested := false, connectPending := true));
    PublishInv(leg2, BoardLink(Connecting));
  }

  lemma InfoInv(leg: Leg, hello: Option<Hello>, auth: AuthAnswer)
    requires BoardInv(leg)
    ensures BoardInv(OnInfo(leg, hello, auth).0)
  {
    if hello.Some? && leg.s.hello.None? && !leg.s.pending && leg.s.codec.None? {
      var leg1 := leg.(s := leg.s.(hello := hello));
      SessionKept(leg, leg1);
      ContinueInv(leg1, hello.value, auth);
    }
  }

  lemma WriteCompleteInv(leg: Leg, id: u16, answer: CloseAnswer)
    requires BoardInv(leg)
    ensures BoardInv(OnWriteComplete(leg, id, answer).0)
  {
    if leg.s.ackWrite == Some(id) {
      var leg1 := leg.(s := leg.s.(ackWrite := None));
      SessionKept(leg, leg1);
      CloseInv(leg1, answer);
    }
  }

  ghost predicate FreshAnswer(leg: Leg, e: HostEvent) {
    e.Wire? ==> FreshWire(leg, e.wire)
  }

  lemma ReactInv(leg: Leg, e: HostEvent)
    requires BoardInv(leg) && FreshAnswer(leg, e)
    ensures BoardInv(React(leg, e).0)
  {
    match e
    case ScanResult(address, accepted) => ScanResultInv(leg, address, accepted);
    case Connected(wideEnough, auth) => ConnectedInv(leg, wideEnough, auth);
    case Disconnected(explained, scanAccepted) => DisconnectedInv(leg, explained, scanAccepted);
    case Info(hello, auth) => InfoInv(leg, hello, auth);
    case Wire(wire) => WireInv(leg, wire);
    case FragmentOnly =>
    case WriteComplete(id, answer) => WriteCompleteInv(leg, id, answer);
    case HostNotice => PublishInv(leg, Notice);
    case HostFailure =>
  }

  lemma HostInv(leg: Leg, e: HostEvent)
    requires BoardInv(leg) && FreshAnswer(leg, e)
    ensures BoardInv(OnHost(leg, e))
  {
    ReactInv(leg, e);
    FailInv(React(leg, e).0);
  }

  lemma WirePlain(leg: Leg, wire: WireIn)
    ensures PlainGrowth(leg.log, OnWire(leg, wire).0.log)
  {
  }

  lemma HostPlain(leg: Leg, e: HostEvent)
    ensures PlainGrowth(leg.log, OnHost(leg, e).log)
  {
    if e.Wire? {
      WirePlain(leg, e.wire);
    }
  }

  // ---- Editor commands ----------------------------------------------------------------

  lemma TrustCommandInv(leg: Leg, identity: nat, auth: AuthAnswer, scanAccepted: bool)
    requires BoardInv(leg) && !BadTrust(leg, ByCommand(TrustBoard(identity, auth, scanAccepted)))
    ensures BoardInv(OnTrust(leg, identity, auth, scanAccepted).0)
  {
    TrustOverKeyedSession(leg, identity, auth, scanAccepted);
    if identity in leg.trusted {
      if leg.s.codec.None? && !leg.s.pending && leg.s.hello.Some? && leg.radio.linkConnected {
        AuthenticationKeeps(leg, auth);
        AuthInv(leg, auth);
      }
    } else if (if leg.s.hello.Some? then Some(leg.s.hello.value.identity) else leg.trustCandidate) == Some(identity) {
      var leg0 := leg.(trusted := leg.trusted + {identity}, trustCandidate := None);
      var leg1 := Publish(leg0, Notice);
      PublishInv(leg0, Notice);
      if leg1.s.hello.Some? && leg1.radio.linkConnected {
        AuthInv(leg1, auth);
      } else {
        ResumeInv(leg1, scanAccepted);
      }
    }
  }

  /** Commands the editor and the bridge core send to the board leg on their own account. */
  predicate FromEditor(c: Command) {
    || c.StartBoardScan? || c.ConnectBoard? || c.DisconnectBoard? || c.TrustBoard? || c.ForgetBoard? || c.ConfigureBle?
    || c.SendRoundTable?
  }

  lemma EditorInv(leg: Leg, c: Command)
    requires BoardInv(leg) && FromEditor(c) && !BadTrust(leg, ByCommand(c))
    ensures BoardInv(OnCommand(leg, c).0)
  {
    match c
    case StartBoardScan(accepted) =>
      PublishInv(leg.(radio := leg.radio.(scanRequested := true)), BoardLink(Discovering));
    case ConnectBoard(address, accepted) =>
      var leg0 := leg.(radio := Radio(Some(address), false, accepted, false), trustCandidate := None);
      EndInv(leg0, None);
      PublishInv(EndSession(leg0, None), BoardLink(Connecting));
    case DisconnectBoard(accepted) =>
    case TrustBoard(identity, auth, scanAccepted) => TrustCommandInv(leg, identity, auth, scanAccepted);
    case ForgetBoard(identity) => PublishInv(leg.(trusted := leg.trusted - {identity}), Notice);
    case ConfigureBle(boards) =>
      if leg.s.hello.None? && !leg.s.pending && leg.s.codec.None? {
        PublishInv(leg.(trusted := boards, trustCandidate := None), Notice);
      }
    case SendRoundTable(sent) =>
  }

  lemma EditorPlain(leg: Leg, c: Command)
    requires FromEditor(c)
    ensures PlainGrowth(leg.log, OnCommand(leg, c).0.log)
  {
  }
}
