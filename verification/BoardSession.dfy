/**
 What decides the board leg: which input is refused and which ends the session, whom it
 authenticates, what an accepted input achieves, and when a desired board is pursued.
 */
module BoardSession {
  import opened Prelude
  import opened BoardLeg

  // ---- Whom it authenticates ---------------------------------------------------

  /** A new set of trusted boards differs from the old one only as the user said. */
  predicate TrustFollows(leg: Leg, leg': Leg, i: Input) {
    if i.ByCommand? then
      match i.command
      case TrustBoard(identity, _, _) =>
        var observed := if leg.s.hello.Some? then Some(leg.s.hello.value.identity) else leg.trustCandidate;
        leg'.trusted == if identity in leg.trusted || observed == Some(identity) then leg.trusted + {identity}
                        else leg.trusted
      case ForgetBoard(identity) => leg'.trusted == leg.trusted - {identity}
      case ConfigureBle(boards) =>
        leg'.trusted == if leg.s.hello.Some? || leg.s.pending || leg.s.codec.Some? then leg.trusted else boards
      case _ => leg'.trusted == leg.trusted
    else leg'.trusted == leg.trusted
  }

  lemma TrustStep(leg: Leg, i: Input)
    ensures TrustFollows(leg, Step(leg, i), i)
  {
    if i.ByHost? {
      TrustUntouchedByHost(leg, i.event);
    }
  }

  lemma TrustUntouchedByHost(leg: Leg, e: HostEvent)
    ensures OnHost(leg, e).trusted == leg.trusted
  {
  }

  /** Ready for authentication: a live link and a trusted board that speaks the realtime lane. */
  predicate Eligible(leg: Leg) {
    && leg.radio.linkConnected && leg.s.hello.Some? && leg.s.hello.value.realtime
    && leg.s.hello.value.identity in leg.trusted
  }

  /** Authentication begins only over a live link, with a board trusted at that moment that speaks the realtime lane. */
  lemma AuthenticationBeginsTrusted(leg: Leg, i: Input)
    requires Step(leg, i).s.pending && !leg.s.pending
    ensures Eligible(Step(leg, i))
  {
    match i
    case ByHost(e) => HostBeginsTrusted(leg, e);
    case ByCommand(c) => CommandBeginsTrusted(leg, c);
    case ByExpiry =>
    case ByPolling =>
  }

  lemma HostBeginsTrusted(leg: Leg, e: HostEvent)
    requires OnHost(leg, e).s.pending && !leg.s.pending
    ensures Eligible(OnHost(leg, e))
  {
    if e.Wire? {
      WireBeginsNothing(leg, e.wire);
    }
  }

  lemma WireBeginsNothing(leg: Leg, wire: WireIn)
    requires !leg.s.pending
    ensures !OnWire(leg, wire).0.s.pending
  {
  }

  lemma CommandBeginsTrusted(leg: Leg, c: Command)
    requires OnCommand(leg, c).0.s.pending && !leg.s.pending
    ensures Eligible(OnCommand(leg, c).0)
  {
    if c.FinishRepair? {
      FinishBeginsNothing(leg, c.binding, c.attempt, c.answer);
    }
  }

  lemma FinishBeginsNothing(leg: Leg, b: Binding, attempt: nat, answer: CloseAnswer)
    requires !leg.s.pending
    ensures !OnFinish(leg, b, attempt, answer).0.s.pending
  {
  }

  /** A session is keyed only by a valid answer to an authentication that had begun, and with the answer's session. */
  lemma KeyedOnlyByAnswer(leg: Leg, i: Input)
    requires Step(leg, i).s.codec.Some? && Step(leg, i).s.codec != leg.s.codec
    ensures leg.s.pending && leg.s.hello.Some? && i.ByHost? && i.event.Wire? && i.event.wire.Answer?
    ensures i.event.wire.valid && Step(leg, i).s.codec == Some(i.event.wire.session)
    ensures Step(leg, i).s.hello == leg.s.hello
  {
    match i
    case ByHost(e) => HostKeysByAnswer(leg, e);
    case ByCommand(c) => CommandKeysNothing(leg, c);
    case ByExpiry =>
    case ByPolling =>
  }

  lemma CommandKeysNothing(leg: Leg, c: Command)
    ensures OnCommand(leg, c).0.s.codec.Some? ==> OnCommand(leg, c).0.s.codec == leg.s.codec
  {
  }

  lemma HostKeysByAnswer(leg: Leg, e: HostEvent)
    requires OnHost(leg, e).s.codec.Some? && OnHost(leg, e).s.codec != leg.s.codec
    ensures leg.s.pending && leg.s.hello.Some? && e.Wire? && e.wire.Answer?
    ensures e.wire.valid && OnHost(leg, e).s.codec == Some(e.wire.session)
    ensures OnHost(leg, e).s.hello == leg.s.hello
  {
    if e.Wire? && !leg.s.pending {
      WireKeepsCodec(leg, e.wire);
    }
  }

  lemma WireKeepsCodec(leg: Leg, wire: WireIn)
    requires !leg.s.pending
    ensures OnWire(leg, wire).0.s.codec == leg.s.codec
  {
  }

  /** The hello seen when authentication began or was keyed was of a board then trusted. */
  ghost predicate AuthenticatedTrusted(trusted: set<nat>, inputs: seq<Input>) {
    var leg := Run(trusted, inputs);
    leg.s.pending || leg.s.codec.Some? ==>
      leg.s.hello.Some? && exists n :: 0 <= n <= |inputs| && TrustedThen(trusted, inputs, n, leg.s.hello.value.identity)
  }

  ghost predicate TrustedThen(trusted: set<nat>, inputs: seq<Input>, n: nat, identity: nat) {
    n <= |inputs| && identity in Run(trusted, inputs[..n]).trusted
  }

  /** A hello under authentication or keyed stays the one authentication began with. */
  lemma HelloStays(leg: Leg, i: Input)
    requires LegInv(leg) && (leg.s.pending || leg.s.codec.Some?)
    requires Step(leg, i).s.pending || Step(leg, i).s.codec.Some?
    requires !(Step(leg, i).s.pending && Step(leg, i).s.hello.Some?
               && Step(leg, i).s.hello.value.identity in Step(leg, i).trusted)
    ensures Step(leg, i).s.hello == leg.s.hello
  {
    match i
    case ByHost(e) => HostKeepsHello(leg, e);
    case ByCommand(c) => CommandKeepsHello(leg, c);
    case ByExpiry =>
    case ByPolling =>
  }

  lemma CommandKeepsHello(leg: Leg, c: Command)
    requires OnCommand(leg, c).0.s.pending || OnCommand(leg, c).0.s.codec.Some?
    ensures OnCommand(leg, c).0.s.hello == leg.s.hello
  {
  }

  lemma HostKeepsHello(leg: Leg, e: HostEvent)
    requires LegInv(leg) && (leg.s.pending || leg.s.codec.Some?)
    requires OnHost(leg, e).s.pending || OnHost(leg, e).s.codec.Some?
    ensures OnHost(leg, e).s.hello == leg.s.hello
  {
    if e.Wire? {
      WireKeepsHello(leg, e.wire);
    }
  }

  lemma WireKeepsHello(leg: Leg, wire: WireIn)
    ensures OnWire(leg, wire).0.s.hello == leg.s.hello
  {
  }

  /**
   In every run without the trust command over a keyed session, a board under
   authentication, or keyed, was trusted at some point of the run before.
   */
  lemma {:induction false} OnlyTrustedBoardsAreKeyed(trusted: set<nat>, inputs: seq<Input>)
    requires NoBadTrust(trusted, inputs)
    ensures AuthenticatedTrusted(trusted, inputs)
  {
    if inputs != [] {
      var n := |inputs| - 1;
      PrefixHasNoBadTrust(trusted, inputs, n);
      OnlyTrustedBoardsAreKeyed(trusted, inputs[..n]);
      LifecycleHolds(trusted, inputs[..n]);
      var leg, leg' := Run(trusted, inputs[..n]), Run(trusted, inputs);
      if leg'.s.pending || leg'.s.codec.Some? {
        TrustedNow(trusted, inputs);
      }
    }
  }

  lemma TrustedNow(trusted: set<nat>, inputs: seq<Input>)
    requires inputs != []
    requires var n := |inputs| - 1;
             AuthenticatedTrusted(trusted, inputs[..n]) && LegInv(Run(trusted, inputs[..n]))
    requires Run(trusted, inputs).s.pending || Run(trusted, inputs).s.codec.Some?
    ensures AuthenticatedTrusted(trusted, inputs)
  {
    var n := |inputs| - 1;
    var leg, i := Run(trusted, inputs[..n]), inputs[n];
    var leg' := Step(leg, i);
    if leg'.s.pending && leg'.s.hello.Some? && leg'.s.hello.value.identity in leg'.trusted {
      assert inputs[..|inputs|] == inputs;
      assert TrustedThen(trusted, inputs, |inputs|, leg'.s.hello.value.identity);
    } else {
      if !leg.s.pending && leg.s.codec.None? {
        if leg'.s.pending {
          AuthenticationBeginsTrusted(leg, i);
        } else {
          KeyedOnlyByAnswer(leg, i);
        }
        assert false;
      }
      HelloStays(leg, i);
      var k :| 0 <= k <= n && TrustedThen(trusted, inputs[..n], k, leg.s.hello.value.identity);
      assert inputs[..n][..k] == inputs[..k];
      assert TrustedThen(trusted, inputs, k, leg.s.hello.value.identity);
    }
  }

  // ---- What a full queue keeps ----------------------------------------------------

  function PublishAll(leg: Leg, events: seq<BoardEvent>): Leg {
    if events == [] then leg else Publish(PublishAll(leg, events[..|events| - 1]), events[|events| - 1])
  }

  /** The newest of a sequence of events, as many as the queue holds. */
  function Newest(events: seq<BoardEvent>): seq<BoardEvent> {
    if |events| <= EVENT_CAPACITY then events else events[|events| - EVENT_CAPACITY..]
  }

  /** However much is published, the queue holds the newest events in order, and every one it lost is counted. */
  lemma {:induction false} QueueKeepsTheNewest(leg: Leg, events: seq<BoardEvent>)
    requires |leg.events| <= EVENT_CAPACITY
    ensures var leg' := PublishAll(leg, events);
            && leg'.events == Newest(leg.events + events)
            && |leg'.events| + (leg'.dropped - leg.dropped) == |leg.events + events|
            && leg' == leg.(events := leg'.events, dropped := leg'.dropped)
  {
    if events == [] {
      assert leg.events + events == leg.events;
    } else {
      var before := events[..|events| - 1];
      QueueKeepsTheNewest(leg, before);
      assert leg.events + events == (leg.events + before) + [events[|events| - 1]];
    }
  }

  /** What n polls hand over. */
  function Handed(leg: Leg, n: nat): seq<BoardEvent>
    decreases n
  {
    if n == 0 || Polled(leg).None? then [] else [Polled(leg).value] + Handed(Take(leg), n - 1)
  }

  /** Polling hands over the report of losses, if there were any, and then every queued event in order. */
  lemma {:induction false} PollsHandOver(leg: Leg, n: nat)
    requires n >= |leg.events| + if leg.dropped != 0 then 1 else 0
    ensures Handed(leg, n) == (if leg.dropped != 0 then [Notice] else []) + leg.events
    decreases n
  {
    if n > 0 && Polled(leg).Some? {
      PollsHandOver(Take(leg), n - 1);
      if leg.dropped == 0 {
        assert leg.events == [leg.events[0]] + leg.events[1..];
      }
    }
  }

  /** A polling loop whose arrivals are handled by any function. */
  function PollWith(handle: (Leg, HostEvent) -> Leg, leg: Leg, arrivals: seq<HostEvent>, turns: nat)
    : (Leg, Option<BoardEvent>)
    decreases turns
  {
    if leg.events != [] || turns == 0 || arrivals == [] then First(leg)
    else PollWith(handle, handle(leg, arrivals[0]), arrivals[1..], turns - 1)
  }

  function After(handle: (Leg, HostEvent) -> Leg, leg: Leg, arrivals: seq<HostEvent>, n: nat): Leg
    requires n <= |arrivals|
  {
    if n == 0 then leg else handle(After(handle, leg, arrivals, n - 1), arrivals[n - 1])
  }

  /** The first event of a queue, if there is one, and what is left. */
  function First(leg: Leg): (Leg, Option<BoardEvent>) {
    if leg.events == [] then (leg, None) else (leg.(events := leg.events[1..]), Some(leg.events[0]))
  }

  /** The platform is asked for more only while the queue is empty, and no more than so many times. */
  ghost predicate AsksOnlyWhenEmpty(handle: (Leg, HostEvent) -> Leg, leg: Leg, arrivals: seq<HostEvent>, turns: nat,
                                    n: nat) {
    && n <= turns && n <= |arrivals|
    && (forall m :: 0 <= m < n ==> After(handle, leg, arrivals, m).events == [])
    && (After(handle, leg, arrivals, n).events == [] ==> n == turns || n == |arrivals|)
  }

  lemma {:induction false} AfterShift(handle: (Leg, HostEvent) -> Leg, leg: Leg, arrivals: seq<HostEvent>, n: nat)
    requires n < |arrivals|
    ensures After(handle, handle(leg, arrivals[0]), arrivals[1..], n) == After(handle, leg, arrivals, n + 1)
  {
    if n > 0 {
      AfterShift(handle, leg, arrivals, n - 1);
    }
  }

  lemma {:induction false} PollsWith(handle: (Leg, HostEvent) -> Leg, leg: Leg, arrivals: seq<HostEvent>, turns: nat)
    returns (n: nat)
    ensures AsksOnlyWhenEmpty(handle, leg, arrivals, turns, n)
    ensures PollWith(handle, leg, arrivals, turns) == First(After(handle, leg, arrivals, n))
    decreases turns
  {
    n := 0;
    if leg.events == [] && turns > 0 && arrivals != [] {
      var m := PollsWith(handle, handle(leg, arrivals[0]), arrivals[1..], turns - 1);
      n := m + 1;
      AfterShift(handle, leg, arrivals, m);
      forall k | 0 <= k < n ensures After(handle, leg, arrivals, k).events == [] {
        if k > 0 {
          AfterShift(handle, leg, arrivals, k - 1);
        }
      }
    }
  }

  lemma {:induction false} PollLoopIs(leg: Leg, arrivals: seq<HostEvent>, turns: nat)
    ensures PollLoop(leg, arrivals, turns) == PollWith(OnHost, leg, arrivals, turns)
    decreases turns
  {
    if leg.events == [] && turns > 0 && arrivals != [] {
      PollLoopIs(OnHost(leg, arrivals[0]), arrivals[1..], turns - 1);
    }
  }

  /** Polling hands over the first event there is once just enough of the platform's arrivals are handled. */
  lemma PollsForMore(leg: Leg, arrivals: seq<HostEvent>, turns: nat) returns (n: nat)
    ensures AsksOnlyWhenEmpty(OnHost, leg, arrivals, turns, n)
    ensures PollLoop(leg, arrivals, turns) == First(After(OnHost, leg, arrivals, n))
  {
    n := PollsWith(OnHost, leg, arrivals, turns);
    PollLoopIs(leg, arrivals, turns);
  }

  /** A poll reports losses before anything else, once, and gives up an overdue repair even before that. */
  lemma PollReportsFirst(leg: Leg, expired: bool, arrivals: seq<HostEvent>)
    ensures var (leg', e) := OnPoll(leg, expired, arrivals);
            && (leg.dropped != 0 ==> e == Some(Notice) && leg'.dropped == 0)
            && (leg.dropped != 0 && !(expired && leg.s.deadline) ==> leg' == leg.(dropped := 0))
            && (leg.dropped == 0 && leg.events != [] && !(expired && leg.s.deadline) ==> (leg', e) == First(leg))
            && (leg.dropped == 0 && leg.events == [] && !(expired && leg.s.deadline) ==>
                  (leg', e) == PollLoop(leg, arrivals, POLL_TURNS))
  {
  }

  lemma OverdueIsGivenUpFirst(leg: Leg, arrivals: seq<HostEvent>)
    requires leg.s.deadline && leg.dropped == 0 && |leg.events| < EVENT_CAPACITY - 1
    ensures var (leg', e) := OnPoll(leg, true, arrivals);
            && leg'.s == NoSession.(hello := leg.s.hello) && leg'.radio.desired.None?
            && e == Some(if leg.events != [] then leg.events[0] else BoardLink(Failed))
  {
  }

  // ---- Which host event ends the session ------------------------------------------

  predicate Opens(hello: Hello, auth: AuthAnswer) {
    hello.realtime && auth.helloSent && auth.offerSent
  }

  predicate WireFails(leg: Leg, wire: WireIn)
    requires LegInv(leg)
  {
    if leg.s.pending then !(wire.Answer? && wire.valid && wire.profileSent)
    else if leg.s.codec.None? then true
    else
      match wire
      case Profile(profile, verdict) =>
        if leg.s.profile.Some? then profile != leg.s.profile.value else verdict == NegotiationFailed
      case RepairControl(answer) => leg.s.close.None? || !answer.accepted || (answer.ackDue && !answer.ackSent)
      case CapabilityReady(digest) => leg.s.provisioning != Some((Current(leg).value, digest))
      case Realtime(valid) => leg.s.profile.None? || !valid
      case RepairFrame(fits, answer) =>
        || !leg.s.hello.value.repair || leg.s.profile.None? || leg.s.close.None? || !fits || !answer.accepted
        || |leg.events| == EVENT_CAPACITY || (answer.ackDue && !answer.ackSent)
      case Answer(_, _, _) => true
      case Invalid => true
  }

  /**
   The host events that cannot be accepted: a reconnect the platform refuses, a link too
   narrow or a hello or authentication that does not go through, a message out of place, an
   ACK completed without its attempt, or a failure the platform reports.
   */
  predicate HostFails(leg: Leg, e: HostEvent)
    requires LegInv(leg)
  {
    match e
    case ScanResult(address, accepted) =>
      !leg.radio.connectPending && leg.radio.desired == Some(address) && !accepted
    case Connected(wideEnough, auth) =>
      !wideEnough || (leg.s.hello.Some? && leg.s.hello.value.identity in leg.trusted && !Opens(leg.s.hello.value, auth))
    case Disconnected(_, _) => false
    case Info(hello, auth) =>
      if hello.None? then true
      else if hello == leg.s.hello then false
      else
        || leg.s.hello.Some?
        || (leg.radio.linkConnected && hello.value.identity in leg.trusted && !Opens(hello.value, auth))
    case Wire(wire) => WireFails(leg, wire)
    case WriteComplete(id, answer) => leg.s.ackWrite == Some(id) && !answer.accepted
    case FragmentOnly => false
    case HostNotice => false
    case HostFailure => true
  }

  /** The session is over, supervision of the board given up, and both are announced. */
  predicate GivenUp(leg: Leg) {
    && leg.s == NoSession.(hello := leg.s.hello)
    && leg.radio == Radio(None, false, false, false)
    && |leg.events| >= 2
    && leg.events[|leg.events| - 2] == BoardLink(Failed) && leg.events[|leg.events| - 1] == Notice
  }

  lemma FailGivesUp(leg: Leg)
    ensures GivenUp(Fail(leg))
  {
  }

  lemma WireFailsIff(leg: Leg, wire: WireIn)
    requires LegInv(leg)
    ensures OnWire(leg, wire).1 <==> !WireFails(leg, wire)
  {
  }

  lemma ReactFailsIff(leg: Leg, e: HostEvent)
    requires LegInv(leg)
    ensures React(leg, e).1 <==> !HostFails(leg, e)
  {
    if e.Wire? {
      WireFailsIff(leg, e.wire);
    }
  }

  /** A host event that cannot be accepted gives everything up; any other leaves the desired board desired. */
  lemma FailedEventsGiveUp(leg: Leg, e: HostEvent)
    requires LegInv(leg)
    ensures if HostFails(leg, e) then GivenUp(OnHost(leg, e))
            else OnHost(leg, e) == React(leg, e).0 && OnHost(leg, e).radio.desired == leg.radio.desired
  {
    ReactFailsIff(leg, e);
    FailGivesUp(React(leg, e).0);
    if e.Wire? {
      WireKeepsRadio(leg, e.wire);
    }
  }

  lemma WireKeepsRadio(leg: Leg, wire: WireIn)
    ensures OnWire(leg, wire).0.radio == leg.radio
  {
  }

  // ---- What an accepted host event achieves ---------------------------------------

  /** The last event queued for the bridge. */
  predicate Says(leg: Leg, e: BoardEvent) {
    leg.events != [] && leg.events[|leg.events| - 1] == e
  }

  /** A pending authentication is answered: the session is keyed and nothing else of it is there yet. */
  lemma AnswerKeys(leg: Leg, wire: WireIn)
    requires LegInv(leg) && leg.s.pending && !WireFails(leg, wire)
    ensures var leg' := OnHost(leg, Wire(wire));
            && leg'.s == leg.s.(pending := false, codec := Some(wire.session))
            && Says(leg', BoardLink(Repairing)) && leg'.radio == leg.radio
  {
  }

  /** The first agreed profile asks for provisioning of the placement just keyed; a refusal is announced. */
  lemma ProfileAnnounces(leg: Leg, profile: nat, verdict: ProfileVerdict)
    requires LegInv(leg) && !leg.s.pending && leg.s.codec.Some? && leg.s.profile.None? && verdict != NegotiationFailed
    ensures var leg' := OnHost(leg, Wire(Profile(profile, verdict)));
            if verdict == Agreed
            then leg'.s == leg.s.(profile := Some(profile)) && Says(leg', ProvisioningRequired(Current(leg).value))
            else leg'.s == leg.s && |leg'.events| >= 2 && leg'.events[|leg'.events| - 2] == BoardLink(Refused)
  {
  }

  /** The board confirms the bundle it was sent: the placement is announced as provisioned, once. */
  lemma CapabilityProvisions(leg: Leg, digest: nat)
    requires LegInv(leg) && !leg.s.pending && leg.s.codec.Some? && !WireFails(leg, CapabilityReady(digest))
    ensures var leg' := OnHost(leg, Wire(CapabilityReady(digest)));
            && leg'.s == leg.s.(provisioning := None)
            && |leg'.events| >= 2 && leg'.events[|leg'.events| - 2] == Provisioned(Current(leg).value)
            && Says(leg', BoardLink(Repairing))
  {
  }

  /** An accepted repair frame is handed on behind everything queued before it; an ACK it makes due is tracked. */
  lemma FrameIsHandedOn(leg: Leg, fits: bool, answer: CloseAnswer)
    requires LegInv(leg) && !leg.s.pending && leg.s.codec.Some? && !WireFails(leg, RepairFrame(fits, answer))
    ensures var leg' := OnHost(leg, Wire(RepairFrame(fits, answer)));
            && leg'.events == leg.events + [RepairInbound(Current(leg).value)]
            && leg'.s == leg.s.(ackWrite := if answer.ackDue then Some(answer.ackId) else leg.s.ackWrite)
  {
  }

  /** Where the carrier's close stands after the local side is done and the close state has answered. */
  predicate ClosesIfConfirmed(leg: Leg, leg': Leg, tracked: Option<u16>, confirmed: bool)
    requires leg.s.finished ==> leg.s.close.Some?
  {
    if leg.s.finished && confirmed
    then && leg'.s == leg.s.(close := None, finished := false, ackWrite := None, awaiting := leg.s.close)
         && Says(leg', CarrierClosed(leg.s.close.value))
    else leg'.s == leg.s.(ackWrite := tracked) && leg'.events == leg.events
  }

  lemma ControlMayClose(leg: Leg, answer: CloseAnswer)
    requires LegInv(leg) && !leg.s.pending && leg.s.codec.Some? && !WireFails(leg, RepairControl(answer))
    ensures ClosesIfConfirmed(leg, OnHost(leg, Wire(RepairControl(answer))),
                              if answer.ackDue then Some(answer.ackId) else leg.s.ackWrite, answer.confirmed)
  {
  }

  lemma CompletedAckMayClose(leg: Leg, id: u16, answer: CloseAnswer)
    requires LegInv(leg) && leg.s.ackWrite == Some(id) && answer.accepted
    ensures ClosesIfConfirmed(leg, OnHost(leg, WriteComplete(id, answer)), None, answer.confirmed)
  {
  }

  lemma OtherWritesDoNothing(leg: Leg, id: u16, answer: CloseAnswer)
    requires leg.s.ackWrite != Some(id)
    ensures OnHost(leg, WriteComplete(id, answer)) == leg
  {
  }

  /** A notice of the platform is passed on and changes nothing. */
  lemma NoticesArePassedOn(leg: Leg)
    ensures OnHost(leg, HostNotice).s == leg.s && OnHost(leg, HostNotice).radio == leg.radio
    ensures Says(OnHost(leg, HostNotice), Notice)
  {
  }

  /** A new hello continues to authentication if the link is up and its board trusted, and else only proposes it. */
  lemma HelloContinues(leg: Leg, hello: Hello, auth: AuthAnswer)
    requires LegInv(leg) && leg.s.hello.None? && !HostFails(leg, Info(Some(hello), auth))
    ensures var leg' := OnHost(leg, Info(Some(hello), auth));
            && leg'.s.hello == Some(hello) && leg'.s.codec.None?
            && (leg'.s.pending <==> leg.radio.linkConnected && hello.identity in leg.trusted)
            && (leg'.s.pending ==> Says(leg', BoardLink(Authenticating)) && leg'.trustCandidate.None?)
            && (leg.radio.linkConnected && hello.identity !in leg.trusted ==>
                  leg'.trustCandidate == Some(hello.identity))
  {
  }

  /** A new link starts over with the hello that came early, and authenticates a trusted board at once. */
  lemma LinkStartsOver(leg: Leg, auth: AuthAnswer)
    requires LegInv(leg) && !HostFails(leg, Connected(true, auth))
    ensures var leg' := OnHost(leg, Connected(true, auth));
            && leg'.s == NoSession.(hello := leg.s.hello, pending := leg'.s.pending)
            && (leg'.s.pending <==> leg.s.hello.Some? && leg.s.hello.value.identity in leg.trusted)
            && leg'.radio == Radio(leg.radio.desired, false, false, true)
            && |leg'.events| > 0 && (leg'.s.pending || leg.s.hello.None? ==> Says(leg', BoardLink(Authenticating)))
            && (leg'.s.pending ==> leg'.trustCandidate.None?)
            && (leg.s.hello.Some? && !leg'.s.pending ==> leg'.trustCandidate == Some(leg.s.hello.value.identity))
  {
  }

  // ---- Supervision -------------------------------------------------------------------

  /** A lost link ends the session whatever its state, and a desired board is scanned for again. */
  lemma LostLinkIsResumed(leg: Leg, explained: bool, scanAccepted: bool)
    ensures var leg' := OnHost(leg, Disconnected(explained, scanAccepted));
            && leg'.s == NoSession && leg'.trusted == leg.trusted
            && leg'.radio == Radio(leg.radio.desired, leg.radio.desired.Some? && scanAccepted, false, false)
            && (leg'.radio.scanRequested ==> Says(leg', BoardLink(Discovering)))
            && (leg.radio.desired.None? && !explained ==> Says(leg', BoardLink(Offline)))
  {
  }

  /** A scan finds the desired board: it is connected to, unless a connect is under way. */
  lemma FoundBoardIsConnected(leg: Leg, address: nat, accepted: bool)
    ensures var leg' := OnHost(leg, ScanResult(address, accepted));
            if leg.radio.desired == Some(address) && !leg.radio.connectPending
            then if accepted then leg'.radio == Radio(Some(address), false, true, leg.radio.linkConnected)
                                  && Says(leg', BoardLink(Connecting)) && leg'.s == leg.s
                 else GivenUp(leg')
            else leg'.radio == leg.radio && leg'.s == leg.s && Says(leg', Notice)
  {
    FailGivesUp(OnScanResult(leg, address, accepted).0);
  }

  /** A board is desired but nothing is under way to reach it. */
  predicate Idle(leg: Leg) {
    leg.radio.desired.Some? && !leg.radio.scanRequested && !leg.radio.connectPending && !leg.radio.linkConnected
  }

  /** A connect the platform refuses, or a lost link after which it refuses to scan. */
  predicate Idles(leg: Leg, i: Input) {
    match i
    case ByCommand(ConnectBoard(address, accepted)) =>
      !accepted && !(leg.radio.desired == Some(address) && (leg.radio.connectPending || leg.radio.linkConnected))
    case ByHost(Disconnected(_, scanAccepted)) => leg.radio.desired.Some? && !scanAccepted
    case _ => false
  }

  /** Whatever gets an idle board going again, or gives it up. */
  predicate Moves(leg: Leg, i: Input)
    requires LegInv(leg)
  {
    match i
    case ByCommand(c) =>
      match c {
        case StartBoardScan(accepted) => accepted
        case ConnectBoard(_, accepted) => accepted
        case DisconnectBoard(_) => true
        case TrustBoard(identity, _, scanAccepted) =>
          leg.s.hello.None? && identity !in leg.trusted && leg.trustCandidate == Some(identity) && scanAccepted
        case AbortRepair(b) => Current(leg) == Some(b)
        case _ => false
      }
    case ByHost(e) =>
      match e {
        case ScanResult(address, _) => leg.radio.desired == Some(address)
        case Connected(_, _) => true
        case Disconnected(_, scanAccepted) => scanAccepted
        case _ => HostFails(leg, e)
      }
    case ByExpiry => leg.s.deadline
    case ByPolling => false
  }

  lemma IdleHost(leg: Leg, e: HostEvent)
    requires LegInv(leg)
    ensures Idle(OnHost(leg, e)) <==> Idles(leg, ByHost(e)) || (Idle(leg) && !Moves(leg, ByHost(e)))
  {
    FailedEventsGiveUp(leg, e);
    if e.Wire? {
      WireKeepsRadio(leg, e.wire);
    }
  }

  lemma IdleCommand(leg: Leg, c: Command)
    requires LegInv(leg)
    ensures Idle(OnCommand(leg, c).0) <==> Idles(leg, ByCommand(c)) || (Idle(leg) && !Moves(leg, ByCommand(c)))
  {
  }

  /**
   In every run without the trust command over a keyed session, a desired board is left idle
   exactly by a refused connect or a refused scan after a lost link, and stays so exactly
   until the user, a scan or the platform moves it or it is given up.
   */
  lemma IdleIff(trusted: set<nat>, inputs: seq<Input>, i: Input)
    requires NoBadTrust(trusted, inputs)
    ensures LegInv(Run(trusted, inputs))
    ensures Idle(Run(trusted, inputs + [i]))
            <==> Idles(Run(trusted, inputs), i) || (Idle(Run(trusted, inputs)) && !Moves(Run(trusted, inputs), i))
  {
    LifecycleHolds(trusted, inputs);
    RunSnoc(trusted, inputs, i);
    match i
    case ByHost(e) => IdleHost(Run(trusted, inputs), e);
    case ByCommand(c) => IdleCommand(Run(trusted, inputs), c);
    case ByExpiry =>
    case ByPolling =>
  }

  // ---- Which command is carried out, and to what effect ---------------------------------

  /** A command the leg carries out. */
  predicate Admits(leg: Leg, c: Command) {
    match c
    case StartBoardScan(accepted) =>
      leg.radio.scanRequested || leg.radio.connectPending || leg.radio.linkConnected || accepted
    case ConnectBoard(address, accepted) =>
      (leg.radio.desired == Some(address) && (leg.radio.connectPending || leg.radio.linkConnected)) || accepted
    case DisconnectBoard(accepted) => accepted
    case TrustBoard(identity, auth, _) => AdmitsTrust(leg, identity, auth)
    case ForgetBoard(_) => true
    case ConfigureBle(_) => leg.s.hello.None? && !leg.s.pending && leg.s.codec.None?
    case SendBundle(b, receiver, digest, sent) =>
      && Current(leg) == Some(b) && leg.s.profile.Some? && receiver == b.identity
      && (if leg.s.provisioning.Some? then leg.s.provisioning.value == (b, digest) else sent)
    case SendFrame(b, fits, sent, answer) =>
      && Current(leg) == Some(b) && fits && leg.s.close in {None, Some(b)} && !(leg.s.close.Some? && leg.s.finished)
      && leg.s.profile.Some? && sent && answer.accepted
    case FinishRepair(b, _, answer) =>
      && leg.s.close == Some(b) && (answer.finDue ==> answer.finSent) && (answer.ackDue ==> answer.ackSent)
    case CompleteRepair(b, _) => Current(leg) == Some(b) && leg.s.awaiting == Some(b)
    case AbortRepair(_) => true
    case SendRoundTable(sent) => leg.s.profile.Some? && leg.s.codec.Some? && sent
  }

  /** Trust needs the board to be the one seen; authenticating it at once may still fail. */
  predicate AdmitsTrust(leg: Leg, identity: nat, auth: AuthAnswer) {
    var seen := if leg.s.hello.Some? then Some(leg.s.hello.value.identity) else leg.trustCandidate;
    if identity in leg.trusted then
      leg.s.hello.None? || (leg.s.hello.value.identity == identity
                            && (leg.s.pending || leg.s.codec.Some? || !leg.radio.linkConnected
                                || Opens(leg.s.hello.value, auth)))
    else
      && seen == Some(identity)
      && (leg.s.hello.Some? && leg.radio.linkConnected ==> Opens(leg.s.hello.value, auth))
  }

  lemma AdmitsIff(leg: Leg, c: Command)
    ensures OnCommand(leg, c).1 <==> Admits(leg, c)
  {
  }

  /** What a command that is carried out leaves behind. */
  predicate Achieves(leg: Leg, leg': Leg, c: Command)
    requires Admits(leg, c)
  {
    match c
    case StartBoardScan(_) =>
      && leg'.s == leg.s
      && (leg'.radio.scanRequested || leg.radio.connectPending || leg.radio.linkConnected)
      && leg'.radio == leg.radio.(scanRequested := leg'.radio.scanRequested)
      && (leg'.radio != leg.radio ==> Says(leg', BoardLink(Discovering)))
    case ConnectBoard(address, _) =>
      && leg'.radio.desired == Some(address) && (leg'.radio.connectPending || leg'.radio.linkConnected)
      && (leg' == leg || (leg'.s == NoSession && leg'.trustCandidate.None? && Says(leg', BoardLink(Connecting))
                          && leg'.radio == Radio(Some(address), false, true, false)))
    case DisconnectBoard(_) =>
      leg'.radio == Radio(None, false, false, false) && leg'.s == leg.s && leg'.trustCandidate.None?
    case TrustBoard(identity, _, _) =>
      && identity in leg'.trusted && (identity !in leg.trusted ==> leg'.trustCandidate.None?)
      && (Eligible(leg) && !leg.s.pending && leg.s.codec.None? ==> leg'.s.pending)
      && (leg'.s.pending && !leg.s.pending ==> Says(leg', BoardLink(Authenticating)))
    case ForgetBoard(identity) => leg'.s == leg.s && leg'.radio == leg.radio && identity !in leg'.trusted
    case ConfigureBle(boards) => leg'.trusted == boards && leg'.trustCandidate.None? && leg'.s == leg.s
    case SendBundle(b, _, digest, _) => leg' == leg.(s := leg.s.(provisioning := Some((b, digest))))
    case SendFrame(b, _, _, _) =>
      && leg'.s.close == Some(b) && !leg'.s.finished
      && (if leg.s.close.Some? then leg' == leg
          else leg'.s == leg.s.(close := Some(b), finished := false, awaiting := None, deadline := true)
               && Says(leg', BoardLink(Repairing)))
    case FinishRepair(b, _, answer) =>
      ClosesIfConfirmed(leg.(s := leg.s.(finished := true)), leg',
                        if answer.ackDue then Some(answer.ackId) else leg.s.ackWrite, answer.confirmed)
    case CompleteRepair(_, _) =>
      leg'.s == leg.s.(awaiting := None, deadline := false) && Says(leg', BoardLink(Ready))
    case AbortRepair(b) => if Current(leg) == Some(b) then GivenUp(leg') else leg' == leg
    case SendRoundTable(_) => leg' == leg
  }

  lemma AdmittedAchieves(leg: Leg, c: Command)
    requires Admits(leg, c)
    ensures Achieves(leg, OnCommand(leg, c).0, c)
  {
    if c.AbortRepair? {
      FailGivesUp(leg);
    } else if c.TrustBoard? {
      TrustAchieves(leg, c.identity, c.auth, c.scanAccepted);
    } else if c.FinishRepair? {
      FinishAchieves(leg, c);
    }
  }

  lemma TrustAchieves(leg: Leg, identity: nat, auth: AuthAnswer, scanAccepted: bool)
    requires AdmitsTrust(leg, identity, auth)
    ensures Achieves(leg, OnTrust(leg, identity, auth, scanAccepted).0, TrustBoard(identity, auth, scanAccepted))
  {
  }

  lemma FinishAchieves(leg: Leg, c: Command)
    requires c.FinishRepair? && Admits(leg, c)
    ensures Achieves(leg, OnFinish(leg, c.binding, c.attempt, c.answer).0, c)
  {
  }

  /** An overdue repair is given up; without one the deadline does nothing. */
  lemma DeadlineGivesUp(leg: Leg)
    ensures if leg.s.deadline then GivenUp(OnExpired(leg)) else OnExpired(leg) == leg
  {
    FailGivesUp(leg);
  }
}
