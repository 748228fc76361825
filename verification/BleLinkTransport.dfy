/** The board leg as the bridge worker holds it: option fields changed by every command and host event. */
module BleLink {
  import opened Prelude
  import opened BoardLeg

  class BleLinkTransport {
    var hello: Option<Hello>
    var profile: Option<nat>
    var provisioning: Option<(Binding, nat)>
    var pending: bool
    var codec: Option<nat>
    var close: Option<Binding>
    var finished: bool
    var ackWrite: Option<u16>
    var awaiting: Option<Binding>
    var deadline: bool
    var desired: Option<nat>
    var scanRequested: bool
    var connectPending: bool
    var linkConnected: bool
    var trusted: set<nat>
    var trustCandidate: Option<nat>
    var events: seq<BoardEvent>
    var dropped: nat
    ghost var log: seq<Note>

    ghost function State(): Leg
      reads this
    {
      Leg(Session(hello, profile, provisioning, pending, codec, close, finished, ackWrite, awaiting, deadline),
          Radio(desired, scanRequested, connectPending, linkConnected),
          trusted, trustCandidate, events, dropped, log)
    }

    constructor (trusted: set<nat>)
      ensures State() == InitialLeg(trusted) && LegInv(State())
    {
      hello, profile, provisioning := None, None, None;
      pending, codec := false, None;
      close, finished, ackWrite, awaiting, deadline := None, false, None, None, false;
      desired, scanRequested, connectPending, linkConnected := None, false, false, false;
      this.trusted, trustCandidate := trusted, None;
      events, dropped := [], 0;
      log := [];
    }

    method PublishEvent(e: BoardEvent)
      modifies this`events, this`dropped
      ensures State() == Publish(old(State()), e)
    {
      if |events| == EVENT_CAPACITY {
        events := events[1..];
        dropped := dropped + 1;
      }
      events := events + [e];
    }

    method CurrentBinding() returns (b: Option<Binding>)
      ensures b == Current(State())
    {
      if hello.None? || codec.None? {
        return None;
      }
      return Some(Binding(hello.value.identity, hello.value.boot, codec.value));
    }

    method SetRepair(c: Option<Binding>, f: bool, w: Option<u16>, a: Option<Binding>, d: bool)
      modifies this`close, this`finished, this`ackWrite, this`awaiting, this`deadline
      ensures State() == old(State()).(s := old(State()).s.(close := c, finished := f, ackWrite := w, awaiting := a,
                                                            deadline := d))
    {
      close, finished, ackWrite, awaiting, deadline := c, f, w, a, d;
    }

    method SetRadio(d: Option<nat>, scanning: bool, connecting: bool, up: bool)
      modifies this`desired, this`scanRequested, this`connectPending, this`linkConnected
      ensures State() == old(State()).(radio := Radio(d, scanning, connecting, up))
    {
      desired, scanRequested, connectPending, linkConnected := d, scanning, connecting, up;
    }

    /** What an observer writes down. */
    ghost method Record(n: Note)
      modifies this`log
      ensures State() == Log(old(State()), n)
    {
      log := log + [n];
    }

    method ResetSession(keep: Option<Hello>)
      modifies this
      ensures State() == EndSession(old(State()), keep)
      ensures Current(State()).None? && LegInv(State())
    {
      SetRepair(None, false, None, None, false);
      profile, provisioning := None, None;
      pending, codec := false, None;
      hello := keep;
      Record(SessionEnded);
    }

    method FailSession()
      modifies this
      ensures State() == Fail(old(State()))
      ensures Current(State()).None? && desired.None? && LegInv(State())
      ensures |events| >= 2 && events[|events| - 2..] == [BoardLink(Failed), Notice]
    {
      ResetSession(hello);
      scanRequested, connectPending, linkConnected := false, false, false;
      PublishEvent(BoardLink(Failed));
      PublishEvent(Notice);
      desired := None;
    }

    method ResumeDesiredConnection(scanAccepted: bool)
      modifies this
      ensures State() == ResumeDesired(old(State()), scanAccepted)
    {
      if desired.Some? && !scanRequested && !connectPending && !linkConnected {
        if scanAccepted {
          scanRequested := true;
          PublishEvent(BoardLink(Discovering));
        } else {
          PublishEvent(Notice);
        }
      }
    }

    method BeginAuth(auth: AuthAnswer) returns (ok: bool)
      modifies this
      ensures (State(), ok) == BeginAuthentication(old(State()), auth)
    {
      if !linkConnected || hello.None? || !hello.value.realtime || !auth.helloSent {
        return false;
      }
      pending := true;
      if !auth.offerSent {
        return false;
      }
      PublishEvent(BoardLink(Authenticating));
      return true;
    }

    method ContinueWith(h: Hello, auth: AuthAnswer) returns (ok: bool)
      modifies this
      ensures (State(), ok) == ContinueAfterHello(old(State()), h, auth)
    {
      if h.identity in trusted {
        trustCandidate := None;
        ok := BeginAuth(auth);
      } else {
        trustCandidate := Some(h.identity);
        PublishEvent(Notice);
        ok := true;
      }
    }

    // ---- Repair lifecycle ---------------------------------------------------

    method SendAckIfDue(answer: CloseAnswer) returns (ok: bool)
      modifies this
      ensures (State(), ok) == MaybeSendAck(old(State()), answer)
    {
      if close.None? || !answer.ackDue {
        return true;
      }
      if !answer.ackSent {
        return false;
      }
      ackWrite := Some(answer.ackId);
      return true;
    }

    method PublishIfClosed(answer: CloseAnswer)
      modifies this
      ensures State() == MaybePublishClosed(old(State()), answer)
    {
      if close.Some? && finished && answer.confirmed {
        var b := close.value;
        SetRepair(None, false, None, Some(b), deadline);
        PublishEvent(CarrierClosed(b));
        Record(WasClosed(b));
      }
    }

    method AckThenClose(answer: CloseAnswer) returns (ok: bool)
      modifies this
      ensures (State(), ok) == AckAndClose(old(State()), answer)
    {
      ok := SendAckIfDue(answer);
      if ok {
        PublishIfClosed(answer);
      }
    }

    method OpenCarrierAttempt(b: Binding)
      modifies this
      ensures State() == OpenCarrier(old(State()), b)
    {
      SetRepair(Some(b), false, ackWrite, None, true);
      PublishEvent(BoardLink(Repairing));
      Record(CarrierOpened(b));
    }

    method SendBoardRepairFrame(b: Binding, fits: bool, sent: bool, answer: CloseAnswer) returns (ok: bool)
      modifies this
      ensures (State(), ok) == OnSendFrame(old(State()), b, fits, sent, answer)
      ensures ok ==> Current(State()) == Some(b) && close == Some(b) && !finished
      ensures Current(State()) == old(Current(State()))
    {
      var current := CurrentBinding();
      if current != Some(b) || !fits {
        return false;
      }
      if close.None? {
        OpenCarrierAttempt(b);
      }
      if close != Some(b) {
        return false;
      }
      return profile.Some? && sent && answer.accepted && !finished;
    }

    method FinishBoardRepair(b: Binding, attempt: nat, answer: CloseAnswer) returns (ok: bool)
      modifies this
      ensures (State(), ok) == OnFinish(old(State()), b, attempt, answer)
      ensures ok ==> old(close) == Some(b) && if answer.confirmed then awaiting == Some(b)
              else close == Some(b) && finished
    {
      if close != Some(b) {
        return false;
      }
      if !finished {
        finished := true;
        log := log + [CarrierFinished(b, attempt)];
      }
      if answer.finDue && !answer.finSent {
        return false;
      }
      ok := AckThenClose(answer);
    }

    /** Succeeds exactly for the current placement while it awaits confirmation, and then announces Ready last. */
    method CompleteBoardRepair(b: Binding, attempt: nat) returns (ok: bool)
      modifies this
      ensures (State(), ok) == OnComplete(old(State()), b, attempt)
      ensures ok <==> old(Current(State())) == Some(b) && old(awaiting) == Some(b)
      ensures ok ==> awaiting.None? && !deadline && events != [] && events[|events| - 1] == BoardLink(Ready)
      ensures !ok ==> State() == old(State())
    {
      var current := CurrentBinding();
      if current != Some(b) || awaiting != Some(b) {
        return false;
      }
      awaiting, deadline := None, false;
      PublishEvent(BoardLink(Ready));
      log := log + [BecameReady(b, attempt)];
      return true;
    }

    method AbortBoardRepair(b: Binding)
      modifies this
      ensures State() == OnAbort(old(State()), b).0
      ensures Current(State()) != Some(b) && (old(Current(State())) != Some(b) ==> State() == old(State()))
    {
      var current := CurrentBinding();
      if current == Some(b) {
        FailSession();
      }
    }

    method SendCapabilityBundle(b: Binding, receiver: nat, digest: nat, sent: bool) returns (ok: bool)
      modifies this
      ensures (State(), ok) == OnBundle(old(State()), b, receiver, digest, sent)
    {
      var current := CurrentBinding();
      if current != Some(b) || profile.None? || receiver != b.identity {
        return false;
      }
      if provisioning.Some? {
        return provisioning.value == (b, digest);
      }
      if !sent {
        return false;
      }
      provisioning := Some((b, digest));
      return true;
    }

    // ---- Messages from the board --------------------------------------------

    method HandleAnswer(wire: WireIn) returns (ok: bool)
      modifies this
      ensures (State(), ok) == OnAnswer(old(State()), wire)
    {
      pending := false;
      if hello.None? || !wire.Answer? || !wire.valid {
        return false;
      }
      codec := Some(wire.session);
      log := log + [Keyed(Binding(hello.value.identity, hello.value.boot, wire.session))];
      PublishEvent(BoardLink(Repairing));
      return wire.profileSent;
    }

    method HandleProfile(p: nat, verdict: ProfileVerdict) returns (ok: bool)
      modifies this
      ensures (State(), ok) == OnProfile(old(State()), p, verdict)
    {
      if profile.Some? {
        return profile.value == p;
      }
      PublishEvent(Notice);
      match verdict {
        case RefusedProfile =>
          PublishEvent(BoardLink(Refused));
          PublishEvent(Notice);
          return true;
        case NegotiationFailed => return false;
        case Agreed =>
          if codec.None? {
            return false;
          }
          profile := Some(p);
          var b := CurrentBinding();
          if b.None? {
            return false;
          }
          PublishEvent(ProvisioningRequired(b.value));
          return true;
      }
    }

    method HandleCapabilityReady(digest: nat) returns (ok: bool)
      modifies this
      ensures (State(), ok) == OnCapabilityReady(old(State()), digest)
    {
      if provisioning.None? {
        return false;
      }
      var (b, expected) := provisioning.value;
      var current := CurrentBinding();
      if current != Some(b) || digest != expected {
        return false;
      }
      provisioning := None;
      PublishEvent(Provisioned(b));
      log := log + [WasProvisioned(b)];
      PublishEvent(BoardLink(Repairing));
      return true;
    }

    method HandleRepairFrame(fits: bool, answer: CloseAnswer) returns (ok: bool)
      modifies this
      ensures (State(), ok) == OnRepairFrame(old(State()), fits, answer)
    {
      var b := CurrentBinding();
      if hello.None? || !hello.value.repair || profile.None? || !fits || b.None? {
        return false;
      }
      if close != b || !answer.accepted || |events| == EVENT_CAPACITY {
        return false;
      }
      events := events + [RepairInbound(b.value)];
      ok := SendAckIfDue(answer);
    }

    method HandleWire(wire: WireIn) returns (ok: bool)
      modifies this
      ensures (State(), ok) == OnWire(old(State()), wire)
    {
      if pending {
        ok := HandleAnswer(wire);
        return;
      }
      if codec.None? {
        return false;
      }
      match wire {
        case Profile(p, verdict) => ok := HandleProfile(p, verdict);
        case RepairControl(answer) =>
          if close.None? || !answer.accepted {
            return false;
          }
          ok := AckThenClose(answer);
        case CapabilityReady(digest) => ok := HandleCapabilityReady(digest);
        case Realtime(valid) =>
          if profile.None? || !valid {
            return false;
          }
          PublishEvent(Notice);
          ok := true;
        case RepairFrame(fits, answer) => ok := HandleRepairFrame(fits, answer);
        case _ => ok := false;
      }
    }

    // ---- Platform events ----------------------------------------------------

    method HandleInfo(h: Option<Hello>, auth: AuthAnswer) returns (ok: bool)
      modifies this
      ensures (State(), ok) == OnInfo(old(State()), h, auth)
    {
      if h.None? {
        return false;
      }
      if hello == h {
        return true;
      }
      if hello.Some? || pending || codec.Some? {
        return false;
      }
      hello := h;
      if !linkConnected {
        return true;
      }
      ok := ContinueWith(h.value, auth);
    }

    method HandleConnected(wideEnough: bool, auth: AuthAnswer) returns (ok: bool)
      modifies this
      ensures (State(), ok) == OnConnected(old(State()), wideEnough, auth)
    {
      var early := hello;
      ResetSession(early);
      scanRequested, connectPending, linkConnected := false, false, true;
      if !wideEnough {
        return false;
      }
      PublishEvent(BoardLink(Authenticating));
      if early.None? {
        return true;
      }
      ok := ContinueWith(early.value, auth);
    }

    method HandleDisconnected(explained: bool, scanAccepted: bool)
      modifies this
      ensures State() == OnDisconnected(old(State()), explained, scanAccepted)
    {
      scanRequested, linkConnected := false, false;
      ResetSession(None);
      connectPending := false;
      PublishEvent(BoardLink(Offline));
      if explained {
        PublishEvent(Notice);
      }
      ResumeDesiredConnection(scanAccepted);
    }

    method HandleScanResult(address: nat, accepted: bool) returns (ok: bool)
      modifies this
      ensures (State(), ok) == OnScanResult(old(State()), address, accepted)
    {
      var reconnect := !connectPending && desired == Some(address);
      PublishEvent(Notice);
      if !reconnect {
        return true;
      }
      scanRequested := false;
      if !accepted {
        return false;
      }
      connectPending := true;
      PublishEvent(BoardLink(Connecting));
      return true;
    }

    method HandleWriteComplete(id: u16, answer: CloseAnswer) returns (ok: bool)
      modifies this
      ensures (State(), ok) == OnWriteComplete(old(State()), id, answer)
    {
      if ackWrite != Some(id) {
        return true;
      }
      if close.None? {
        return false;
      }
      if !answer.accepted {
        return false;
      }
      ackWrite := None;
      PublishIfClosed(answer);
      return true;
    }

    method HandleHostEvent(e: HostEvent)
      modifies this
      ensures State() == OnHost(old(State()), e)
      ensures old(LegInv(State())) ==> LegInv(State())
    {
      ghost var before := State();
      var ok := true;
      match e {
        case ScanResult(address, accepted) => ok := HandleScanResult(address, accepted);
        case Connected(wideEnough, auth) => ok := HandleConnected(wideEnough, auth);
        case Disconnected(explained, scanAccepted) => HandleDisconnected(explained, scanAccepted);
        case Info(h, auth) => ok := HandleInfo(h, auth);
        case Wire(wire) => ok := HandleWire(wire);
        case FragmentOnly =>
        case WriteComplete(id, answer) => ok := HandleWriteComplete(id, answer);
        case HostNotice => PublishEvent(Notice);
        case HostFailure => ok := false;
      }
      if !ok {
        FailSession();
      }
      if LegInv(before) {
        HostKeeps(before, e);
      }
    }

    // ---- Commands -------------------------------------------------------------

    method Trust(identity: nat, auth: AuthAnswer, scanAccepted: bool) returns (ok: bool)
      modifies this
      ensures (State(), ok) == OnTrust(old(State()), identity, auth, scanAccepted)
    {
      if identity in trusted {
        if hello.None? {
          return true;
        }
        if hello.value.identity != identity {
          return false;
        }
        if pending || codec.Some? || !linkConnected {
          return true;
        }
        ok := BeginAuth(auth);
        return;
      }
      var observed := if hello.Some? then Some(hello.value.identity) else trustCandidate;
      if observed != Some(identity) {
        return false;
      }
      trusted := trusted + {identity};
      trustCandidate := None;
      PublishEvent(Notice);
      ok := true;
      if hello.Some? && linkConnected {
        ok := BeginAuth(auth);
      } else if hello.None? {
        ResumeDesiredConnection(scanAccepted);
      }
    }

    method Connect(address: nat, accepted: bool) returns (ok: bool)
      modifies this
      ensures (State(), ok) == OnConnectBoard(old(State()), address, accepted)
    {
      if desired == Some(address) && (connectPending || linkConnected) {
        return true;
      }
      Redirect(address, accepted);
      if !accepted {
        return false;
      }
      PublishEvent(BoardLink(Connecting));
      return true;
    }

    /** Aim at another address; the session with the previous one ends. */
    method Redirect(address: nat, accepted: bool)
      modifies this
      ensures State() == EndSession(old(State()).(radio := Radio(Some(address), false, accepted, false),
                                                  trustCandidate := None), None)
    {
      SetRadio(Some(address), false, accepted, false);
      trustCandidate := None;
      ResetSession(None);
    }

    method StartScan(accepted: bool) returns (ok: bool)
      modifies this
      ensures (State(), ok) == OnStartScan(old(State()), accepted)
    {
      if scanRequested || connectPending || linkConnected {
        return true;
      }
      if !accepted {
        return false;
      }
      scanRequested := true;
      PublishEvent(BoardLink(Discovering));
      return true;
    }

    method Configure(boards: set<nat>) returns (ok: bool)
      modifies this
      ensures (State(), ok) == OnConfigure(old(State()), boards)
    {
      if hello.Some? || pending || codec.Some? {
        return false;
      }
      trusted, trustCandidate := boards, None;
      PublishEvent(Notice);
      return true;
    }

    method HandleRepairCommand(c: Command) returns (ok: bool)
      requires c.SendBundle? || c.SendFrame? || c.FinishRepair? || c.CompleteRepair? || c.AbortRepair?
      modifies this
      ensures (State(), ok) == OnCommand(old(State()), c)
    {
      match c {
        case SendBundle(b, receiver, digest, sent) => ok := SendCapabilityBundle(b, receiver, digest, sent);
        case SendFrame(b, fits, sent, answer) => ok := SendBoardRepairFrame(b, fits, sent, answer);
        case FinishRepair(b, attempt, answer) => ok := FinishBoardRepair(b, attempt, answer);
        case CompleteRepair(b, attempt) => ok := CompleteBoardRepair(b, attempt);
        case AbortRepair(b) =>
          AbortBoardRepair(b);
          ok := true;
      }
    }

    method HandleTrustCommand(c: Command) returns (ok: bool)
      requires c.TrustBoard? || c.ForgetBoard? || c.ConfigureBle?
      modifies this
      ensures (State(), ok) == OnCommand(old(State()), c)
    {
      match c {
        case TrustBoard(identity, auth, scanAccepted) => ok := Trust(identity, auth, scanAccepted);
        case ForgetBoard(identity) =>
          trusted := trusted - {identity};
          PublishEvent(Notice);
          ok := true;
        case ConfigureBle(boards) => ok := Configure(boards);
      }
    }

    method HandleCommand(c: Command) returns (ok: bool)
      modifies this
      ensures (State(), ok) == OnCommand(old(State()), c)
    {
      match c {
        case StartBoardScan(accepted) => ok := StartScan(accepted);
        case ConnectBoard(address, accepted) => ok := Connect(address, accepted);
        case DisconnectBoard(accepted) =>
          SetRadio(None, false, false, false);
          trustCandidate := None;
          ok := accepted;
        case TrustBoard(_, _, _) => ok := HandleTrustCommand(c);
        case ForgetBoard(_) => ok := HandleTrustCommand(c);
        case ConfigureBle(_) => ok := HandleTrustCommand(c);
        case SendRoundTable(sent) => ok := profile.Some? && codec.Some? && sent;
        case _ => ok := HandleRepairCommand(c);
      }
    }

    /** `arrivals` are the platform events waiting; the poll handles as many as it needs to find something to report. */
    method PollEvent(expired: bool, arrivals: seq<HostEvent>) returns (e: Option<BoardEvent>)
      modifies this
      ensures (State(), e) == OnPoll(old(State()), expired, arrivals)
      ensures old(LegInv(State())) ==> LegInv(State())
    {
      ghost var before := State();
      if expired && deadline {
        FailSession();
      }
      if LegInv(before) {
        PollKeeps(before, expired, arrivals);
      }
      if dropped != 0 {
        dropped := 0;
        return Some(Notice);
      }
      e := PollWaiting(arrivals);
    }

    method PopEvent() returns (e: Option<BoardEvent>)
      modifies this`events
      ensures e == (if old(events) == [] then None else Some(old(events)[0]))
      ensures events == if old(events) == [] then [] else old(events)[1..]
    {
      if events == [] {
        return None;
      }
      e := Some(events[0]);
      events := events[1..];
    }

    /** One turn of the polling loop. */
    method PollTurn(arrivals: seq<HostEvent>, turn: nat, ghost turns: nat)
      requires events == [] && turn < |arrivals| && turns > 0
      modifies this
      ensures PollLoop(State(), arrivals[turn + 1..], turns - 1) == PollLoop(old(State()), arrivals[turn..], turns)
    {
      PollUnfolds(State(), arrivals, turn, turns);
      HandleHostEvent(arrivals[turn]);
    }

    method PollWaiting(arrivals: seq<HostEvent>) returns (e: Option<BoardEvent>)
      modifies this
      ensures (State(), e) == PollLoop(old(State()), arrivals, POLL_TURNS)
    {
      ghost var goal := PollLoop(State(), arrivals, POLL_TURNS);
      var turn: nat := 0;
      assert arrivals[0..] == arrivals;
      while turn < POLL_TURNS && events == [] && turn < |arrivals|
        invariant turn <= POLL_TURNS && turn <= |arrivals|
        invariant PollLoop(State(), arrivals[turn..], POLL_TURNS - turn) == goal
      {
        PollTurn(arrivals, turn, POLL_TURNS - turn);
        turn := turn + 1;
      }
      PollEnds(State(), arrivals[turn..], POLL_TURNS - turn);
      e := PopEvent();
    }
  }
}
