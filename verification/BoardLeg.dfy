/**
 The board leg of the bridge: the signed BLE session and the lifecycle of one
 carrier repair attempt inside it.

 Cryptography, the wire codecs and the repair close state machine are external;
 what they answer arrives with each command and host event. Of the close state
 machine the model keeps one fact, `finished`: the local side has declared its last
 frame. A close is confirmed only after that, and no local frame is accepted after
 it. `log` is what an observer writes down, and the attempt numbers some commands
 and notes carry are the observer's too; no operation reads either.
 */
module BoardLeg {
  import opened Prelude

  datatype Hello = Hello(identity: nat, boot: nat, realtime: bool, repair: bool)

  /** One authenticated board placement. */
  datatype Binding = Binding(identity: nat, boot: nat, session: nat)

  datatype Link = Offline | Discovering | Connecting | Authenticating | Repairing | Ready | Refused | Failed

  datatype BoardEvent =
    | BoardLink(link: Link)
    | ProvisioningRequired(binding: Binding)
    | Provisioned(binding: Binding)
    | RepairInbound(binding: Binding)
    | CarrierClosed(binding: Binding)
    | Notice

  datatype Note =
    | Keyed(binding: Binding)
    | SessionEnded
    | WasProvisioned(binding: Binding)
    | CarrierOpened(binding: Binding)
    | CarrierFinished(binding: Binding, attempt: nat)
    | WasClosed(binding: Binding)
    | RoomStarted(binding: Binding, attempt: nat)
    | RoomSynchronized(binding: Binding, attempt: nat)
    | BecameReady(binding: Binding, attempt: nat)

  const EVENT_CAPACITY: nat := 256

  /** The signed session and the repair attempt inside it. */
  datatype Session = Session(
    hello: Option<Hello>, profile: Option<nat>, provisioning: Option<(Binding, nat)>,
    pending: bool, codec: Option<nat>,
    close: Option<Binding>, finished: bool, ackWrite: Option<u16>, awaiting: Option<Binding>, deadline: bool)

  const NoSession: Session := Session(None, None, None, false, None, None, false, None, None, false)

  /** Discovery and connection supervision. */
  datatype Radio = Radio(desired: Option<nat>, scanRequested: bool, connectPending: bool, linkConnected: bool)

  datatype Leg = Leg(
    s: Session, radio: Radio, trusted: set<nat>, trustCandidate: Option<nat>,
    events: seq<BoardEvent>, dropped: nat, log: seq<Note>)

  function InitialLeg(trusted: set<nat>): Leg {
    Leg(NoSession, Radio(None, false, false, false), trusted, None, [], 0, [])
  }

  /** Whether each message of the authentication opening was handed to the platform. */
  datatype AuthAnswer = AuthAnswer(helloSent: bool, offerSent: bool)

  /**
   The repair close state's answers around one operation: whether the operation
   itself was accepted, whether a FIN or an ACK is now due and could be sent (the
   ACK under message id `ackId`), and whether the close is now confirmed.
   */
  datatype CloseAnswer = CloseAnswer(
    accepted: bool, finDue: bool, finSent: bool, ackDue: bool, ackSent: bool, ackId: u16, confirmed: bool)

  datatype ProfileVerdict = Agreed | RefusedProfile | NegotiationFailed

  /** One complete authenticated message from the board, or the answer that completes authentication. */
  datatype WireIn =
    | Answer(valid: bool, session: nat, profileSent: bool)
    | Profile(profile: nat, verdict: ProfileVerdict)
    | RepairControl(answer: CloseAnswer)
    | CapabilityReady(digest: nat)
    | Realtime(valid: bool)
    | RepairFrame(fits: bool, answer: CloseAnswer)
    | Invalid

  datatype HostEvent =
    | ScanResult(address: nat, accepted: bool)
    | Connected(wideEnough: bool, auth: AuthAnswer)
    | Disconnected(explained: bool, scanAccepted: bool)
    | Info(hello: Option<Hello>, auth: AuthAnswer)
    | Wire(wire: WireIn)
    | FragmentOnly
    | WriteComplete(id: u16, answer: CloseAnswer)
    | HostNotice
    | HostFailure

  datatype Command =
    | StartBoardScan(accepted: bool)
    | ConnectBoard(address: nat, accepted: bool)
    | DisconnectBoard(accepted: bool)
    | TrustBoard(identity: nat, auth: AuthAnswer, scanAccepted: bool)
    | ForgetBoard(identity: nat)
    | ConfigureBle(boards: set<nat>)
    | SendBundle(binding: Binding, receiver: nat, digest: nat, sent: bool)
    | SendFrame(binding: Binding, fits: bool, sent: bool, answer: CloseAnswer)
    | FinishRepair(binding: Binding, attempt: nat, answer: CloseAnswer)
    | CompleteRepair(binding: Binding, attempt: nat)
    | AbortRepair(binding: Binding)
    | SendRoundTable(sent: bool)

  // ---- Small operations ---------------------------------------------------

  function Bounded(events: seq<BoardEvent>, e: BoardEvent): seq<BoardEvent> {
    if |events| == EVENT_CAPACITY then events[1..] + [e] else events + [e]
  }

  /** A full queue drops its oldest event and counts the loss. */
  function Publish(leg: Leg, e: BoardEvent): Leg {
    leg.(events := Bounded(leg.events, e),
         dropped := leg.dropped + if |leg.events| == EVENT_CAPACITY then 1 else 0)
  }

  function Log(leg: Leg, n: Note): Leg {
    leg.(log := leg.log + [n])
  }

  function BindingOf(s: Session): Option<Binding> {
    if s.hello.Some? && s.codec.Some? then
      Some(Binding(s.hello.value.identity, s.hello.value.boot, s.codec.value))
    else None
  }

  function Current(leg: Leg): Option<Binding> {
    BindingOf(leg.s)
  }

  /** Ends the session, keeping at most the board's hello. */
  function EndSession(leg: Leg, hello: Option<Hello>): Leg {
    Log(leg.(s := NoSession.(hello := hello)), SessionEnded)
  }

  function Fail(leg: Leg): Leg {
    Publish(Publish(EndSession(leg.(radio := Radio(None, false, false, false)), leg.s.hello), BoardLink(Failed)),
            Notice)
  }

  function ResumeDesired(leg: Leg, scanAccepted: bool): Leg {
    if leg.radio.desired.Some? && !leg.radio.scanRequested && !leg.radio.connectPending && !leg.radio.linkConnected then
      if scanAccepted then Publish(leg.(radio := leg.radio.(scanRequested := true)), BoardLink(Discovering))
      else Publish(leg, Notice)
    else leg
  }

  function BeginAuthentication(leg: Leg, auth: AuthAnswer): (Leg, bool) {
    if !leg.radio.linkConnected || leg.s.hello.None? || !leg.s.hello.value.realtime || !auth.helloSent then (leg, false)
    else if !auth.offerSent then (leg.(s := leg.s.(pending := true)), false)
    else (Publish(leg.(s := leg.s.(pending := true)), BoardLink(Authenticating)), true)
  }

  function ContinueAfterHello(leg: Leg, hello: Hello, auth: AuthAnswer): (Leg, bool) {
    if hello.identity in leg.trusted then BeginAuthentication(leg.(trustCandidate := None), auth)
    else (Publish(leg.(trustCandidate := Some(hello.identity)), Notice), true)
  }

  // ---- The repair lifecycle -----------------------------------------------

  function MaybeSendAck(leg: Leg, answer: CloseAnswer): (Leg, bool) {
    if leg.s.close.None? || !answer.ackDue then (leg, true)
    else if !answer.ackSent then (leg, false)
    else (leg.(s := leg.s.(ackWrite := Some(answer.ackId))), true)
  }

  function MaybePublishClosed(leg: Leg, answer: CloseAnswer): Leg {
    if leg.s.close.Some? && leg.s.finished && answer.confirmed then
      var b := leg.s.close.value;
      var s := leg.s.(close := None, finished := false, ackWrite := None, awaiting := Some(b));
      Log(Publish(leg.(s := s), CarrierClosed(b)), WasClosed(b))
    else leg
  }

  function AckAndClose(leg: Leg, answer: CloseAnswer): (Leg, bool) {
    var (leg', ok) := MaybeSendAck(leg, answer);
    if ok then (MaybePublishClosed(leg', answer), true) else (leg', false)
  }

  function OpenCarrier(leg: Leg, b: Binding): Leg {
    var s := leg.s.(awaiting := None, close := Some(b), finished := false, deadline := true);
    Log(Publish(leg.(s := s), BoardLink(Repairing)), CarrierOpened(b))
  }

  function OnSendFrame(leg: Leg, b: Binding, fits: bool, sent: bool, answer: CloseAnswer): (Leg, bool) {
    if Current(leg) != Some(b) || !fits then (leg, false)
    else
      var leg1 := if leg.s.close.None? then OpenCarrier(leg, b) else leg;
      if leg1.s.close != Some(b) then (leg1, false)
      else (leg1, leg1.s.profile.Some? && sent && answer.accepted && !leg1.s.finished)
  }

  /** The local side declares its last frame; doing so again changes nothing. */
  function MarkFinished(leg: Leg, b: Binding, attempt: nat): Leg {
    if leg.s.finished then leg else Log(leg.(s := leg.s.(finished := true)), CarrierFinished(b, attempt))
  }

  function OnFinish(leg: Leg, b: Binding, attempt: nat, answer: CloseAnswer): (Leg, bool) {
    if leg.s.close != Some(b) then (leg, false)
    else
      var leg1 := MarkFinished(leg, b, attempt);
      if answer.finDue && !answer.finSent then (leg1, false) else AckAndClose(leg1, answer)
  }

  function OnComplete(leg: Leg, b: Binding, attempt: nat): (Leg, bool) {
    if Current(leg) != Some(b) || leg.s.awaiting != Some(b) then (leg, false)
    else
      var leg1 := leg.(s := leg.s.(awaiting := None, deadline := false));
      (Log(Publish(leg1, BoardLink(Ready)), BecameReady(b, attempt)), true)
  }

  function OnAbort(leg: Leg, b: Binding): (Leg, bool) {
    if Current(leg) == Some(b) then (Fail(leg), true) else (leg, true)
  }

  /** A full event queue refuses the inbound frame instead of dropping an older event. */
  function OnRepairFrame(leg: Leg, fits: bool, answer: CloseAnswer): (Leg, bool) {
    var b := Current(leg);
    if leg.s.hello.None? || !leg.s.hello.value.repair || leg.s.profile.None? || !fits || b.None? then (leg, false)
    else if leg.s.close != b || !answer.accepted || |leg.events| == EVENT_CAPACITY then (leg, false)
    else MaybeSendAck(leg.(events := leg.events + [RepairInbound(b.value)]), answer)
  }

  function OnWriteComplete(leg: Leg, id: u16, answer: CloseAnswer): (Leg, bool) {
    if leg.s.ackWrite != Some(id) then (leg, true)
    else if AbandonedAck(leg, id) || !answer.accepted then (leg, false)
    else (MaybePublishClosed(leg.(s := leg.s.(ackWrite := None)), answer), true)
  }

  /** "Repair ACK completed after attempt abandonment". */
  predicate AbandonedAck(leg: Leg, id: u16) {
    leg.s.ackWrite == Some(id) && leg.s.close.None?
  }

  // ---- Session -------------------------------------------------------------

  function OnProfile(leg: Leg, profile: nat, verdict: ProfileVerdict): (Leg, bool) {
    if leg.s.profile.Some? then (leg, leg.s.profile.value == profile)
    else
      var leg1 := Publish(leg, Notice);
      match verdict
      case RefusedProfile => (Publish(Publish(leg1, BoardLink(Refused)), Notice), true)
      case NegotiationFailed => (leg1, false)
      case Agreed =>
        if leg1.s.codec.None? then (leg1, false)
        else
          var leg2 := leg1.(s := leg1.s.(profile := Some(profile)));
          if Current(leg2).None? then (leg2, false)
          else (Publish(leg2, ProvisioningRequired(Current(leg2).value)), true)
  }

  function OnCapabilityReady(leg: Leg, digest: nat): (Leg, bool) {
    if leg.s.provisioning.None? then (leg, false)
    else
      var (b, expected) := leg.s.provisioning.value;
      if Current(leg) != Some(b) || digest != expected then (leg, false)
      else
        (Publish(Log(Publish(leg.(s := leg.s.(provisioning := None)), Provisioned(b)), WasProvisioned(b)),
                 BoardLink(Repairing)), true)
  }

  function OnBundle(leg: Leg, b: Binding, receiver: nat, digest: nat, sent: bool): (Leg, bool) {
    if Current(leg) != Some(b) || leg.s.profile.None? || receiver != b.identity then (leg, false)
    else if leg.s.provisioning.Some? then (leg, leg.s.provisioning.value == (b, digest))
    else if !sent then (leg, false)
    else (leg.(s := leg.s.(provisioning := Some((b, digest)))), true)
  }

  function OnAnswer(leg: Leg, wire: WireIn): (Leg, bool) {
    var leg1 := leg.(s := leg.s.(pending := false));
    if leg1.s.hello.None? || !wire.Answer? || !wire.valid then (leg1, false)
    else
      var leg2 := leg1.(s := leg1.s.(codec := Some(wire.session)));
      (Publish(Log(leg2, Keyed(Current(leg2).value)), BoardLink(Repairing)), wire.profileSent)
  }

  function OnWire(leg: Leg, wire: WireIn): (Leg, bool) {
    if leg.s.pending then OnAnswer(leg, wire)
    else if leg.s.codec.None? then (leg, false)
    else
      match wire
      case Profile(profile, verdict) => OnProfile(leg, profile, verdict)
      case RepairControl(answer) =>
        if leg.s.close.None? || !answer.accepted then (leg, false) else AckAndClose(leg, answer)
      case CapabilityReady(digest) => OnCapabilityReady(leg, digest)
      case Realtime(valid) => if leg.s.profile.None? || !valid then (leg, false) else (Publish(leg, Notice), true)
      case RepairFrame(fits, answer) => OnRepairFrame(leg, fits, answer)
      case _ => (leg, false)
  }

  function OnInfo(leg: Leg, hello: Option<Hello>, auth: AuthAnswer): (Leg, bool) {
    if hello.None? then (leg, false)
    else if leg.s.hello == hello then (leg, true)
    else if leg.s.hello.Some? || leg.s.pending || leg.s.codec.Some? then (leg, false)
    else
      var leg1 := leg.(s := leg.s.(hello := hello));
      if !leg1.radio.linkConnected then (leg1, true) else ContinueAfterHello(leg1, hello.value, auth)
  }

  /** A new link resets the session but keeps a hello that raced ahead of it. */
  function OnConnected(leg: Leg, wideEnough: bool, auth: AuthAnswer): (Leg, bool) {
    var early := leg.s.hello;
    var leg1 := EndSession(leg, early).(radio := Radio(leg.radio.desired, false, false, true));
    if !wideEnough then (leg1, false)
    else
      var leg2 := Publish(leg1, BoardLink(Authenticating));
      if early.Some? then ContinueAfterHello(leg2, early.value, auth) else (leg2, true)
  }

  function OnDisconnected(leg: Leg, explained: bool, scanAccepted: bool): Leg {
    var leg1 := Publish(EndSession(leg.(radio := Radio(leg.radio.desired, false, false, false)), None),
                        BoardLink(Offline));
    ResumeDesired(if explained then Publish(leg1, Notice) else leg1, scanAccepted)
  }

  function OnScanResult(leg: Leg, address: nat, accepted: bool): (Leg, bool) {
    var reconnect := !leg.radio.connectPending && leg.radio.desired == Some(address);
    var leg1 := Publish(leg, Notice);
    if !reconnect then (leg1, true)
    else
      var leg2 := leg1.(radio := leg1.radio.(scanRequested := false));
      if !accepted then (leg2, false)
      else (Publish(leg2.(radio := leg2.radio.(connectPending := true)), BoardLink(Connecting)), true)
  }

  /** What a host event does before a failure, if any, ends the session. */
  function React(leg: Leg, e: HostEvent): (Leg, bool) {
    match e
    case ScanResult(address, accepted) => OnScanResult(leg, address, accepted)
    case Connected(wideEnough, auth) => OnConnected(leg, wideEnough, auth)
    case Disconnected(explained, scanAccepted) => (OnDisconnected(leg, explained, scanAccepted), true)
    case Info(hello, auth) => OnInfo(leg, hello, auth)
    case Wire(wire) => OnWire(leg, wire)
    case FragmentOnly => (leg, true)
    case WriteComplete(id, answer) => OnWriteComplete(leg, id, answer)
    case HostNotice => (Publish(leg, Notice), true)
    case HostFailure => (leg, false)
  }

  function OnHost(leg: Leg, e: HostEvent): Leg {
    var (leg', ok) := React(leg, e);
    if ok then leg' else Fail(leg')
  }

  function OnTrust(leg: Leg, identity: nat, auth: AuthAnswer, scanAccepted: bool): (Leg, bool) {
    if identity in leg.trusted then
      if leg.s.hello.None? then (leg, true)
      else if leg.s.hello.value.identity != identity then (leg, false)
      else if leg.s.pending || leg.s.codec.Some? || !leg.radio.linkConnected then (leg, true)
      else BeginAuthentication(leg, auth)
    else
      var observed := if leg.s.hello.Some? then Some(leg.s.hello.value.identity) else leg.trustCandidate;
      if observed != Some(identity) then (leg, false)
      else
        var leg1 := Publish(leg.(trusted := leg.trusted + {identity}, trustCandidate := None), Notice);
        if leg1.s.hello.Some? && leg1.radio.linkConnected then BeginAuthentication(leg1, auth)
        else if leg1.s.hello.None? then (ResumeDesired(leg1, scanAccepted), true)
        else (leg1, true)
  }

  function OnConnectBoard(leg: Leg, address: nat, accepted: bool): (Leg, bool) {
    if leg.radio.desired == Some(address) && (leg.radio.connectPending || leg.radio.linkConnected) then (leg, true)
    else
      var leg1 := EndSession(leg.(radio := Radio(Some(address), false, accepted, false), trustCandidate := None), None);
      if !accepted then (leg1, false) else (Publish(leg1, BoardLink(Connecting)), true)
  }

  function OnStartScan(leg: Leg, accepted: bool): (Leg, bool) {
    if leg.radio.scanRequested || leg.radio.connectPending || leg.radio.linkConnected then (leg, true)
    else if !accepted then (leg, false)
    else (Publish(leg.(radio := leg.radio.(scanRequested := true)), BoardLink(Discovering)), true)
  }

  function OnConfigure(leg: Leg, boards: set<nat>): (Leg, bool) {
    if leg.s.hello.Some? || leg.s.pending || leg.s.codec.Some? then (leg, false)
    else (Publish(leg.(trusted := boards, trustCandidate := None), Notice), true)
  }

  function OnCommand(leg: Leg, c: Command): (Leg, bool) {
    match c
    case StartBoardScan(accepted) => OnStartScan(leg, accepted)
    case ConnectBoard(address, accepted) => OnConnectBoard(leg, address, accepted)
    case DisconnectBoard(accepted) => (leg.(radio := Radio(None, false, false, false), trustCandidate := None),
                                       accepted)
    case TrustBoard(identity, auth, scanAccepted) => OnTrust(leg, identity, auth, scanAccepted)
    case ForgetBoard(identity) => (Publish(leg.(trusted := leg.trusted - {identity}), Notice), true)
    case ConfigureBle(boards) => OnConfigure(leg, boards)
    case SendBundle(b, receiver, digest, sent) => OnBundle(leg, b, receiver, digest, sent)
    case SendFrame(b, fits, sent, answer) => OnSendFrame(leg, b, fits, sent, answer)
    case FinishRepair(b, attempt, answer) => OnFinish(leg, b, attempt, answer)
    case CompleteRepair(b, attempt) => OnComplete(leg, b, attempt)
    case AbortRepair(b) => OnAbort(leg, b)
    case SendRoundTable(sent) => (leg, leg.s.profile.Some? && leg.s.codec.Some? && sent)
  }

  /** Polling with an expired repair deadline. */
  function OnExpired(leg: Leg): Leg {
    if leg.s.deadline then Fail(leg) else leg
  }

  // ---- The lifecycle invariant --------------------------------------------

  ghost predicate LifecycleInv(s: Session) {
    && (s.deadline <==> (s.close.Some? || s.awaiting.Some?))
    && !(s.close.Some? && s.awaiting.Some?)
    && (s.ackWrite.Some? || s.finished ==> s.close.Some?)
    && (s.profile.Some? ==> s.codec.Some?)
    && (s.close.Some? ==> BindingOf(s) == s.close)
    && (s.awaiting.Some? ==> BindingOf(s) == s.awaiting)
    && (s.provisioning.Some? ==> BindingOf(s) == Some(s.provisioning.value.0))
  }

  /** Authentication never runs over a keyed session, and both need the board's hello. */
  ghost predicate KeyingInv(s: Session) {
    && !(s.pending && s.codec.Some?)
    && (s.pending || s.codec.Some? ==> s.hello.Some?)
  }

  ghost predicate SessionInv(s: Session) {
    LifecycleInv(s) && KeyingInv(s)
  }

  ghost predicate LegInv(leg: Leg) {
    SessionInv(leg.s)
  }

  datatype Input = ByCommand(command: Command) | ByHost(event: HostEvent) | ByExpiry | ByPolling

  function Take(leg: Leg): Leg {
    if leg.dropped != 0 then leg.(dropped := 0) else if leg.events != [] then leg.(events := leg.events[1..]) else leg
  }

  /** What one poll hands to the caller: the loss notice first, then the oldest event. */
  function Polled(leg: Leg): Option<BoardEvent> {
    if leg.dropped != 0 then Some(Notice) else if leg.events != [] then Some(leg.events[0]) else None
  }

  /**
   The polling loop: hand out the oldest event; while there is none, let the platform's
   next arrival be handled, at most `turns` times.
   */
  function PollLoop(leg: Leg, arrivals: seq<HostEvent>, turns: nat): (Leg, Option<BoardEvent>)
    decreases turns
  {
    if leg.events != [] then (leg.(events := leg.events[1..]), Some(leg.events[0]))
    else if turns == 0 || arrivals == [] then (leg, None)
    else PollLoop(OnHost(leg, arrivals[0]), arrivals[1..], turns - 1)
  }

  const POLL_TURNS: nat := 64

  /** One poll: an expired deadline fails the session first, then losses are reported, then events. */
  function OnPoll(leg: Leg, expired: bool, arrivals: seq<HostEvent>): (Leg, Option<BoardEvent>) {
    var leg1 := if expired then OnExpired(leg) else leg;
    if leg1.dropped != 0 then (leg1.(dropped := 0), Some(Notice)) else PollLoop(leg1, arrivals, POLL_TURNS)
  }

  function Step(leg: Leg, i: Input): Leg {
    match i
    case ByCommand(command) => OnCommand(leg, command).0
    case ByHost(event) => OnHost(leg, event)
    case ByExpiry => OnExpired(leg)
    case ByPolling => Take(leg)
  }

  function Run(trusted: set<nat>, inputs: seq<Input>): Leg {
    if inputs == [] then InitialLeg(trusted) else Step(Run(trusted, inputs[..|inputs| - 1]), inputs[|inputs| - 1])
  }

  /**
   Trusting the connected board again after it was forgotten, while its session is
   keyed: the one input that restarts authentication over a keyed session.
   */
  predicate BadTrust(leg: Leg, i: Input) {
    && i.ByCommand? && i.command.TrustBoard?
    && leg.s.codec.Some? && leg.radio.linkConnected && i.command.identity !in leg.trusted
    && leg.s.hello.Some? && leg.s.hello.value.identity == i.command.identity && leg.s.hello.value.realtime
    && i.command.auth.helloSent
  }

  lemma EndKeeps(leg: Leg)
    ensures LegInv(Fail(leg)) && forall hello :: LegInv(EndSession(leg, hello))
  {
  }

  /** Publishing and logging are invisible to the session. */
  lemma PublishKeeps(leg: Leg, e: BoardEvent)
    requires LegInv(leg)
    ensures LegInv(Publish(leg, e)) && Current(Publish(leg, e)) == Current(leg)
  {
  }

  lemma AuthenticationKeeps(leg: Leg, auth: AuthAnswer)
    requires LegInv(leg) && leg.s.codec.None?
    ensures LegInv(BeginAuthentication(leg, auth).0)
  {
  }

  lemma ContinueKeeps(leg: Leg, hello: Hello, auth: AuthAnswer)
    requires LegInv(leg) && leg.s.codec.None?
    ensures LegInv(ContinueAfterHello(leg, hello, auth).0)
  {
  }

  lemma LifecycleCommandKeeps(leg: Leg, c: Command)
    requires LegInv(leg) && (c.SendBundle? || c.SendFrame? || c.FinishRepair? || c.CompleteRepair? || c.AbortRepair?)
    ensures LegInv(OnCommand(leg, c).0)
  {
    match c
    case SendBundle(b, receiver, digest, sent) =>
    case SendFrame(b, fits, sent, answer) =>
    case FinishRepair(b, attempt, answer) =>
      if leg.s.close == Some(b) {
        AckAndCloseKeeps(MarkFinished(leg, b, attempt), answer);
      }
    case CompleteRepair(b, attempt) =>
    case AbortRepair(b) => EndKeeps(leg);
  }

  lemma AckAndCloseKeeps(leg: Leg, answer: CloseAnswer)
    requires LegInv(leg)
    ensures LegInv(MaybeSendAck(leg, answer).0) && LegInv(AckAndClose(leg, answer).0)
    ensures leg.s.ackWrite.None? ==> LegInv(MaybePublishClosed(leg, answer))
  {
  }

  /** Of all commands only the bad trust breaks the session, and it always does. */
  lemma CommandKeepsIff(leg: Leg, c: Command)
    requires LegInv(leg)
    ensures LegInv(OnCommand(leg, c).0) <==> !BadTrust(leg, ByCommand(c))
  {
    match c
    case TrustBoard(identity, auth, scanAccepted) => TrustOverKeyedSession(leg, identity, auth, scanAccepted);
    case ConnectBoard(address, accepted) => ConnectBoardKeeps(leg, address, accepted);
    case StartBoardScan(accepted) =>
    case DisconnectBoard(accepted) =>
    case ForgetBoard(identity) =>
    case ConfigureBle(boards) =>
    case SendRoundTable(sent) =>
    case _ => LifecycleCommandKeeps(leg, c);
  }

  lemma ConnectBoardKeeps(leg: Leg, address: nat, accepted: bool)
    requires LegInv(leg)
    ensures LegInv(OnConnectBoard(leg, address, accepted).0)
  {
  }

  lemma SessionMessageKeeps(leg: Leg, wire: WireIn)
    requires LegInv(leg) && !leg.s.pending && leg.s.codec.Some?
    ensures LegInv(OnWire(leg, wire).0)
  {
    match wire
    case Profile(profile, verdict) => ProfileKeeps(leg, profile, verdict);
    case RepairControl(answer) => AckAndCloseKeeps(leg, answer);
    case CapabilityReady(digest) =>
    case RepairFrame(fits, answer) =>
    case _ =>
  }

  lemma ProfileKeeps(leg: Leg, profile: nat, verdict: ProfileVerdict)
    requires LegInv(leg)
    ensures LegInv(OnProfile(leg, profile, verdict).0)
  {
  }

  lemma WireKeeps(leg: Leg, wire: WireIn)
    requires LegInv(leg)
    ensures LegInv(OnWire(leg, wire).0)
  {
    if !leg.s.pending && leg.s.codec.Some? {
      SessionMessageKeeps(leg, wire);
    }
  }

  lemma ConnectedKeeps(leg: Leg, wideEnough: bool, auth: AuthAnswer)
    ensures LegInv(OnConnected(leg, wideEnough, auth).0)
  {
    var early := leg.s.hello;
    var leg1 := EndSession(leg, early).(radio := Radio(leg.radio.desired, false, false, true));
    assert LegInv(leg1);
    if wideEnough && early.Some? {
      ContinueKeeps(Publish(leg1, BoardLink(Authenticating)), early.value, auth);
    }
  }

  lemma InfoKeeps(leg: Leg, hello: Option<Hello>, auth: AuthAnswer)
    requires LegInv(leg)
    ensures LegInv(OnInfo(leg, hello, auth).0)
  {
    if hello.Some? && leg.s.hello.None? && !leg.s.pending && leg.s.codec.None? {
      ContinueKeeps(leg.(s := leg.s.(hello := hello)), hello.value, auth);
    }
  }

  lemma HostKeeps(leg: Leg, e: HostEvent)
    requires LegInv(leg)
    ensures LegInv(OnHost(leg, e))
  {
    match e
    case ScanResult(address, accepted) => EndKeeps(OnScanResult(leg, address, accepted).0);
    case Connected(wideEnough, auth) =>
      ConnectedKeeps(leg, wideEnough, auth);
      EndKeeps(OnConnected(leg, wideEnough, auth).0);
    case Disconnected(explained, scanAccepted) =>
    case Info(hello, auth) =>
      InfoKeeps(leg, hello, auth);
      EndKeeps(OnInfo(leg, hello, auth).0);
    case Wire(wire) =>
      WireKeeps(leg, wire);
      EndKeeps(OnWire(leg, wire).0);
    case FragmentOnly =>
    case WriteComplete(id, answer) =>
      if leg.s.ackWrite == Some(id) {
        AckAndCloseKeeps(leg.(s := leg.s.(ackWrite := None)), answer);
      }
      EndKeeps(leg);
    case HostNotice => PublishKeeps(leg, Notice);
    case HostFailure => EndKeeps(leg);
  }

  lemma PollUnfolds(leg: Leg, arrivals: seq<HostEvent>, turn: nat, turns: nat)
    requires leg.events == [] && turn < |arrivals| && turns > 0
    ensures PollLoop(leg, arrivals[turn..], turns) == PollLoop(OnHost(leg, arrivals[turn]), arrivals[turn + 1..],
                                                               turns - 1)
  {
    assert arrivals[turn..][1..] == arrivals[turn + 1..];
  }

  /** Polling ends with an event to hand out, or with turns or arrivals used up. */
  lemma PollEnds(leg: Leg, arrivals: seq<HostEvent>, turns: nat)
    requires leg.events != [] || turns == 0 || arrivals == []
    ensures PollLoop(leg, arrivals, turns)
         == if leg.events == [] then (leg, None) else (leg.(events := leg.events[1..]), Some(leg.events[0]))
  {
  }

  lemma {:induction false} PollLoopKeeps(leg: Leg, arrivals: seq<HostEvent>, turns: nat)
    requires LegInv(leg)
    ensures LegInv(PollLoop(leg, arrivals, turns).0)
    decreases turns
  {
    if leg.events == [] && turns > 0 && arrivals != [] {
      HostKeeps(leg, arrivals[0]);
      PollLoopKeeps(OnHost(leg, arrivals[0]), arrivals[1..], turns - 1);
    }
  }

  /** Whatever arrives while polling, the session invariant survives the poll. */
  lemma PollKeeps(leg: Leg, expired: bool, arrivals: seq<HostEvent>)
    requires LegInv(leg)
    ensures LegInv(OnPoll(leg, expired, arrivals).0)
  {
    EndKeeps(leg);
    PollLoopKeeps(if expired then OnExpired(leg) else leg, arrivals, POLL_TURNS);
  }

  /** An input keeps the session invariant exactly when it is not that trust. */
  lemma StepKeepsIff(leg: Leg, i: Input)
    requires LegInv(leg)
    ensures LegInv(Step(leg, i)) <==> !BadTrust(leg, i)
  {
    match i
    case ByCommand(command) => CommandKeepsIff(leg, command);
    case ByHost(event) => HostKeeps(leg, event);
    case ByExpiry => EndKeeps(leg);
    case ByPolling =>
  }

  ghost predicate NoBadTrust(trusted: set<nat>, inputs: seq<Input>) {
    forall n :: 0 <= n < |inputs| ==> !BadTrust(Run(trusted, inputs[..n]), inputs[n])
  }

  lemma {:induction false} LifecycleHolds(trusted: set<nat>, inputs: seq<Input>)
    requires NoBadTrust(trusted, inputs)
    ensures LegInv(Run(trusted, inputs))
  {
    if inputs != [] {
      PrefixHasNoBadTrust(trusted, inputs, |inputs| - 1);
      LifecycleHolds(trusted, inputs[..|inputs| - 1]);
      StepKeepsIff(Run(trusted, inputs[..|inputs| - 1]), inputs[|inputs| - 1]);
    }
  }

  lemma PrefixHasNoBadTrust(trusted: set<nat>, inputs: seq<Input>, n: nat)
    requires NoBadTrust(trusted, inputs) && n <= |inputs|
    ensures NoBadTrust(trusted, inputs[..n])
  {
    forall m | 0 <= m < n ensures !BadTrust(Run(trusted, inputs[..n][..m]), inputs[..n][m]) {
      assert inputs[..n][..m] == inputs[..m];
    }
  }

  /**
   In any run the lifecycle invariant holds after every prefix exactly when no input is
   that trust. The invariant: the deadline is armed exactly while one carrier attempt is
   open or one closed attempt awaits confirmation, never both; both belong to the current
   placement; a tracked ACK belongs to an open attempt; an agreed profile has a keyed
   session.
   */
  lemma LifecycleHoldsIff(trusted: set<nat>, inputs: seq<Input>)
    ensures (forall n :: 0 <= n <= |inputs| ==> LegInv(Run(trusted, inputs[..n]))) <==> NoBadTrust(trusted, inputs)
  {
    if NoBadTrust(trusted, inputs) {
      forall n | 0 <= n <= |inputs| ensures LegInv(Run(trusted, inputs[..n])) {
        PrefixHasNoBadTrust(trusted, inputs, n);
        LifecycleHolds(trusted, inputs[..n]);
      }
    }
    if forall n :: 0 <= n <= |inputs| ==> LegInv(Run(trusted, inputs[..n])) {
      forall n | 0 <= n < |inputs| ensures !BadTrust(Run(trusted, inputs[..n]), inputs[n]) {
        assert inputs[..n + 1] == inputs[..n] + [inputs[n]];
        RunSnoc(trusted, inputs[..n], inputs[n]);
        StepKeepsIff(Run(trusted, inputs[..n]), inputs[n]);
      }
    }
  }

  /** Hence the "ACK completed after attempt abandonment" failure is dead code in such runs. */
  lemma AbandonedAckIsUnreachable(trusted: set<nat>, inputs: seq<Input>, id: u16)
    requires NoBadTrust(trusted, inputs)
    ensures !AbandonedAck(Run(trusted, inputs), id)
  {
    LifecycleHolds(trusted, inputs);
  }

  /**
   Trusting a board keeps the session invariant in every state but one: the connected
   board was forgotten, is still keyed, and its hello goes out again.
   */
  lemma TrustOverKeyedSession(leg: Leg, identity: nat, auth: AuthAnswer, scanAccepted: bool)
    requires LegInv(leg)
    ensures LegInv(OnTrust(leg, identity, auth, scanAccepted).0)
            <==> !BadTrust(leg, ByCommand(TrustBoard(identity, auth, scanAccepted)))
  {
  }

  lemma RunSnoc(trusted: set<nat>, inputs: seq<Input>, i: Input)
    ensures Run(trusted, inputs + [i]) == Step(Run(trusted, inputs), i)
  {
    assert (inputs + [i])[..|inputs|] == inputs;
  }

  const Sent: AuthAnswer := AuthAnswer(true, true)
  const BoardOne: Hello := Hello(1, 1, true, true)
  const NoAnswer: CloseAnswer := CloseAnswer(true, false, false, false, false, 0, false)

  const OpenSession: Session :=
    NoSession.(hello := Some(BoardOne), profile := Some(1), codec := Some(7), close := Some(Binding(1, 1, 7)),
               deadline := true)

  /** Board 1 is keyed under session 7, agrees on a profile and gets a first repair frame. */
  function OpenAttempt(): seq<Input> {
    [] + [ByHost(Connected(true, Sent))] + [ByHost(Info(Some(BoardOne), Sent))]
    + [ByHost(Wire(Answer(true, 7, true)))] + [ByHost(Wire(Profile(1, Agreed)))]
    + [ByCommand(SendFrame(Binding(1, 1, 7), true, true, NoAnswer))]
  }

  /** The link is up, the board trusted, and the session is `s`. */
  ghost predicate Linked(leg: Leg, s: Session) {
    leg.s == s && leg.radio.linkConnected && 1 in leg.trusted
  }

  lemma HelloBegins(leg: Leg)
    requires Linked(leg, NoSession)
    ensures Linked(OnHost(leg, Info(Some(BoardOne), Sent)), NoSession.(hello := Some(BoardOne), pending := true))
  {
  }

  lemma AnswerKeys(leg: Leg)
    requires Linked(leg, NoSession.(hello := Some(BoardOne), pending := true))
    ensures Linked(OnHost(leg, Wire(Answer(true, 7, true))), NoSession.(hello := Some(BoardOne), codec := Some(7)))
  {
  }

  lemma ProfileAgrees(leg: Leg)
    requires Linked(leg, NoSession.(hello := Some(BoardOne), codec := Some(7)))
    ensures Linked(OnHost(leg, Wire(Profile(1, Agreed))),
                   NoSession.(hello := Some(BoardOne), codec := Some(7), profile := Some(1)))
  {
  }

  lemma FrameOpens(leg: Leg)
    requires Linked(leg, NoSession.(hello := Some(BoardOne), codec := Some(7), profile := Some(1)))
    ensures Linked(OnCommand(leg, SendFrame(Binding(1, 1, 7), true, true, NoAnswer)).0, OpenSession)
  {
  }

  lemma OpenAttemptExample(trusted: set<nat>)
    requires 1 in trusted
    ensures Linked(Run(trusted, OpenAttempt()), OpenSession)
  {
    var leg1 := Step(InitialLeg(trusted), ByHost(Connected(true, Sent)));
    LinkComesUp(trusted);
    var leg2 := Step(leg1, ByHost(Info(Some(BoardOne), Sent)));
    HelloBegins(leg1);
    var leg3 := Step(leg2, ByHost(Wire(Answer(true, 7, true))));
    AnswerKeys(leg2);
    var leg4 := Step(leg3, ByHost(Wire(Profile(1, Agreed))));
    ProfileAgrees(leg3);
    FrameOpens(leg4);
    FiveSteps(trusted, ByHost(Connected(true, Sent)), ByHost(Info(Some(BoardOne), Sent)),
              ByHost(Wire(Answer(true, 7, true))), ByHost(Wire(Profile(1, Agreed))),
              ByCommand(SendFrame(Binding(1, 1, 7), true, true, NoAnswer)));
  }

  lemma FiveSteps(trusted: set<nat>, a: Input, b: Input, c: Input, d: Input, e: Input)
    ensures Run(trusted, [] + [a] + [b] + [c] + [d] + [e])
         == Step(Step(Step(Step(Step(InitialLeg(trusted), a), b), c), d), e)
  {
    RunSnoc(trusted, [], a);
    RunSnoc(trusted, [] + [a], b);
    RunSnoc(trusted, [] + [a] + [b], c);
    RunSnoc(trusted, [] + [a] + [b] + [c], d);
    RunSnoc(trusted, [] + [a] + [b] + [c] + [d], e);
  }

  lemma LinkComesUp(trusted: set<nat>)
    requires 1 in trusted
    ensures Linked(OnHost(InitialLeg(trusted), Connected(true, Sent)), NoSession)
  {
  }

  lemma TrustedAgain(leg: Leg)
    requires Linked(leg, OpenSession)
    ensures var again := OnTrust(OnCommand(leg, ForgetBoard(1)).0, 1, Sent, true).0;
            again.s == OpenSession.(pending := true)
  {
  }

  /** Forgetting and trusting that board again, then one valid answer, leaves the attempt behind a stale placement. */
  lemma ForgettingBreaksTheLifecycle(trusted: set<nat>)
    requires 1 in trusted
    ensures var again := OpenAttempt() + [ByCommand(ForgetBoard(1))] + [ByCommand(TrustBoard(1, Sent, true))];
            var leg := Run(trusted, again + [ByHost(Wire(Answer(true, 8, true)))]);
            leg.s.close == Some(Binding(1, 1, 7)) && Current(leg) == Some(Binding(1, 1, 8))
  {
    OpenAttemptExample(trusted);
    var i0 := OpenAttempt();
    var i1 := i0 + [ByCommand(ForgetBoard(1))];
    var i2 := i1 + [ByCommand(TrustBoard(1, Sent, true))];
    RunSnoc(trusted, i0, ByCommand(ForgetBoard(1)));
    RunSnoc(trusted, i1, ByCommand(TrustBoard(1, Sent, true)));
    TrustedAgain(Run(trusted, i0));
    RunSnoc(trusted, i2, ByHost(Wire(Answer(true, 8, true))));
  }
}
