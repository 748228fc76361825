/**
 The state skeleton of the desktop BLE driver loop: the installed connection, the
 pending connect attempt, the discovery it owns or shares, and the transmit
 scheduler they must agree with. Every answer of the platform is a parameter.
 */
module BleDriver {
  import opened Prelude
  import opened BleFragments
  import opened BleScheduler
  import opened BleDelivery

  datatype Scan = Idle | Owned | Adopted

  datatype StartAnswer = Started | AlreadyActive | StartFailed

  datatype ConnectAnswer = NotVisible | Connected(scanStopped: bool) | Retryable | Fatal

  /** What one connect attempt meets: the connect itself, a scan it may start, an adapter it may reopen. */
  datatype Attempt = Attempt(answer: ConnectAnswer, start: StartAnswer, reopened: bool)

  datatype LinkCheck = Alive | Lost | CheckFailed

  datatype Event =
    | StartScan(start: StartAnswer)
    | StopScan(stopped: bool)
    | Connect(attempt: Attempt)
    | Disconnect(stopped: bool)
    | WriteMessage(priority: Priority, plan: Option<Message>)
    | TxReady(written: bool)
    | Refresh(expired: bool, stopped: bool, attempt: Attempt, link: LinkCheck)

  /** A message accepted for, or a fragment offered to, connection number `connection`. */
  datatype Accept = Accept(connection: nat, priority: Priority, message: Message)
  datatype Put = Put(connection: nat, priority: Priority, fragment: Fragment)

  /**
   What an observer of the platform records. `discovering` is the discovery this
   driver started and has not stopped; `stops` logs its value at each stop call.
   */
  datatype Trace = Trace(
    epoch: Epoch, past: seq<Epoch>, installs: nat,
    discovering: bool, stops: seq<bool>, accepts: seq<Accept>, puts: seq<Put>)

  datatype Driver = Driver(tx: Scheduler, connection: Option<nat>, pendingConnect: bool, scan: Scan, trace: Trace)

  const InitialDriver: Driver :=
    Driver(InitialScheduler, None, false, Idle, Trace(EmptyEpoch, [], 0, false, [], [], []))

  function HistoryOf(d: Driver): History {
    History(d.tx, d.trace.epoch, d.trace.past)
  }

  function Tx(d: Driver, a: Action): Driver {
    var h := Step(HistoryOf(d), a);
    d.(tx := h.tx, trace := d.trace.(epoch := h.epoch, past := h.past))
  }

  function CallStop(d: Driver, stopped: bool): Driver {
    d.(trace := d.trace.(stops := d.trace.stops + [d.trace.discovering],
                         discovering := d.trace.discovering && !stopped))
  }

  function StopOwned(d: Driver, stopped: bool): Driver {
    match d.scan
    case Idle => d
    case Adopted => d.(scan := Idle)
    case Owned => CallStop(d, stopped).(scan := if stopped then Idle else Owned)
  }

  function EnsureScan(d: Driver, start: StartAnswer): (Driver, bool) {
    if d.scan != Idle then (d, true)
    else
      match start
      case Started => (d.(scan := Owned, trace := d.trace.(discovering := true)), true)
      case AlreadyActive => (d.(scan := Adopted), true)
      case StartFailed => (d, false)
  }

  /** Dropping the old adapter proxy also releases the discovery it had started. */
  function ReopenAndScan(d: Driver, attempt: Attempt): (Driver, bool) {
    if !attempt.reopened then (d, false)
    else EnsureScan(d.(scan := Idle, trace := d.trace.(discovering := false)), attempt.start)
  }

  function Install(d: Driver): Driver {
    Tx(d.(connection := Some(d.trace.installs), pendingConnect := false,
          trace := d.trace.(installs := d.trace.installs + 1)), DoFresh)
  }

  function TryConnect(d: Driver, attempt: Attempt, first: bool): Driver {
    match attempt.answer
    case Connected(stopped) =>
      Install((if d.scan == Owned then CallStop(d, stopped) else d).(scan := Idle))
    case NotVisible =>
      if !first then d
      else
        var (d', ok) := EnsureScan(d, attempt.start);
        if ok then d' else d'.(pendingConnect := false)
    case Retryable =>
      var (d', ok) := ReopenAndScan(d, attempt);
      if ok then d' else d'.(pendingConnect := false)
    case Fatal => d.(pendingConnect := false)
  }

  function FaultAndDrop(d: Driver): Driver {
    Tx(d, DoFault).(connection := None)
  }

  function OnWrite(d: Driver, p: Priority, plan: Option<Message>): Driver {
    if d.connection.None? then d
    else
      var d' := Tx(d, DoEnqueue(p, plan));
      if d.tx.faulted || plan.None? then d'
      else d'.(trace := d'.trace.(accepts := d'.trace.accepts + [Accept(d.connection.value, p, plan.value)]))
  }

  function OnTxReady(d: Driver, written: bool): Driver {
    if d.connection.None? || Pick(d.tx).None? then d
    else
      var d1 := Tx(d, DoPrepare);
      match PrepareNext(d.tx).1
      case Ok(None) => d1
      case Ok(Some(prepared)) =>
        var put := Put(d.connection.value, prepared.priority, prepared.fragment);
        var d2 := d1.(trace := d1.trace.(puts := d1.trace.puts + [put]));
        if written then Tx(d2, DoConfirm) else FaultAndDrop(d2)
      case Err(_) => FaultAndDrop(d1)
  }

  /** The message id reported by a writable slot, if that slot completed a message. */
  function Reported(d: Driver, written: bool): Option<u16> {
    if d.connection.None? || Pick(d.tx).None? || !written then None
    else
      match PrepareNext(d.tx)
      case (tx, Ok(Some(_))) => ConfirmPending(tx).1
      case _ => None
  }

  function OnRefresh(d: Driver, expired: bool, stopped: bool, attempt: Attempt, link: LinkCheck): Driver {
    var d1 :=
      if !d.pendingConnect then d
      else if expired then StopOwned(d.(pendingConnect := false), stopped)
      else TryConnect(d, attempt, false);
    if d1.connection.Some? && link != Alive then FaultAndDrop(d1) else d1
  }

  function Handle(d: Driver, event: Event): Driver {
    match event
    case StartScan(start) => EnsureScan(d, start).0
    case StopScan(stopped) => if d.pendingConnect then d else StopOwned(d, stopped)
    case Connect(attempt) => TryConnect(FaultAndDrop(d).(pendingConnect := true), attempt, true)
    case Disconnect(stopped) => StopOwned(FaultAndDrop(d).(pendingConnect := false), stopped)
    case WriteMessage(p, plan) => OnWrite(d, p, plan)
    case TxReady(written) => OnTxReady(d, written)
    case Refresh(expired, stopped, attempt, link) => OnRefresh(d, expired, stopped, attempt, link)
  }

  /** What runs once after the loop has ended. */
  function Finish(d: Driver, stopped: bool): Driver {
    if d.scan == Owned then CallStop(FaultAndDrop(d), stopped) else FaultAndDrop(d)
  }

  function Loop(events: seq<Event>): Driver {
    if events == [] then InitialDriver else Handle(Loop(events[..|events| - 1]), events[|events| - 1])
  }

  // ---- What holds at every loop head --------------------------------------

  /** The epoch's messages were all accepted for connection c. */
  ghost predicate EpochBelongs(t: Trace, c: nat) {
    forall p, m :: m in LaneOf(t.epoch, p).accepted ==> Accept(c, p, m) in t.accepts
  }

  /** The fragment belongs to a message accepted after its connection was installed. */
  ghost predicate PutJustified(t: Trace, put: Put) {
    exists m, k: nat :: Accept(put.connection, put.priority, m) in t.accepts && k < |m.chunks|
        && put.fragment == FragmentAt(m, k)
  }

  ghost predicate ScanSafe(d: Driver) {
    && (d.scan == Owned ==> d.trace.discovering)
    && (forall i :: 0 <= i < |d.trace.stops| ==> d.trace.stops[i])
  }

  ghost predicate LogsSafe(t: Trace) {
    && (forall a :: a in t.accepts ==> a.connection < t.installs)
    && (forall put :: put in t.puts ==> PutJustified(t, put))
  }

  ghost predicate DriverInv(d: Driver) {
    && HistoryInv(HistoryOf(d))
    && (d.connection.Some? <==> !d.tx.faulted)
    && (d.pendingConnect ==> d.connection.None?)
    && (d.connection.Some? ==> d.connection.value + 1 == d.trace.installs && EpochBelongs(d.trace, d.connection.value))
    && ScanSafe(d)
    && LogsSafe(d.trace)
  }

  lemma FaultKeeps(d: Driver)
    requires DriverInv(d)
    ensures DriverInv(FaultAndDrop(d)) && FaultAndDrop(d).connection.None?
    ensures DriverInv(FaultAndDrop(d).(pendingConnect := true)) && DriverInv(FaultAndDrop(d).(pendingConnect := false))
    ensures FaultAndDrop(d).scan == d.scan
  {
    StepKeepsHistory(HistoryOf(d), DoFault);
  }

  lemma InstallKeeps(d: Driver)
    requires DriverInv(d) && d.connection.None?
    ensures DriverInv(Install(d))
  {
    var d0 := d.(connection := Some(d.trace.installs), pendingConnect := false,
                 trace := d.trace.(installs := d.trace.installs + 1));
    assert HistoryOf(d0) == HistoryOf(d);
    StepKeepsHistory(HistoryOf(d0), DoFresh);
    LogsGrow(d.trace, Install(d).trace);
  }

  /** Justified logs stay justified when the trace only grows elsewhere. */
  lemma LogsGrow(t: Trace, t': Trace)
    requires LogsSafe(t) && t'.puts == t.puts && t'.accepts == t.accepts && t.installs <= t'.installs
    ensures LogsSafe(t')
  {
    forall put | put in t'.puts ensures PutJustified(t', put) {
      assert PutJustified(t, put);
      var m, k: nat :| Accept(put.connection, put.priority, m) in t.accepts && k < |m.chunks|
          && put.fragment == FragmentAt(m, k);
      assert Accept(put.connection, put.priority, m) in t'.accepts;
    }
  }

  lemma TryConnectKeeps(d: Driver, attempt: Attempt, first: bool)
    requires DriverInv(d) && d.connection.None?
    ensures DriverInv(TryConnect(d, attempt, first))
  {
    match attempt.answer
    case Connected(stopped) =>
      var d' := (if d.scan == Owned then CallStop(d, stopped) else d).(scan := Idle);
      assert HistoryOf(d') == HistoryOf(d);
      LogsGrow(d.trace, d'.trace);
      InstallKeeps(d');
    case NotVisible => ScanKeeps(d, attempt);
    case Retryable => ScanKeeps(d, attempt);
    case Fatal =>
  }

  lemma ScanKeeps(d: Driver, attempt: Attempt)
    requires DriverInv(d)
    ensures DriverInv(EnsureScan(d, attempt.start).0)
            && DriverInv(EnsureScan(d, attempt.start).0.(pendingConnect := false))
    ensures DriverInv(ReopenAndScan(d, attempt).0) && DriverInv(ReopenAndScan(d, attempt).0.(pendingConnect := false))
  {
    var d1, d2 := EnsureScan(d, attempt.start).0, ReopenAndScan(d, attempt).0;
    assert HistoryOf(d1) == HistoryOf(d) == HistoryOf(d2);
    LogsGrow(d.trace, d1.trace);
    LogsGrow(d.trace, d2.trace);
  }

  lemma StopKeeps(d: Driver, stopped: bool)
    requires DriverInv(d)
    ensures DriverInv(StopOwned(d, stopped))
  {
    var d' := StopOwned(d, stopped);
    assert HistoryOf(d') == HistoryOf(d);
    LogsGrow(d.trace, d'.trace);
  }

  lemma WriteKeeps(d: Driver, p: Priority, plan: Option<Message>)
    requires DriverInv(d)
    ensures DriverInv(OnWrite(d, p, plan))
  {
    if d.connection.Some? {
      StepKeepsHistory(HistoryOf(d), DoEnqueue(p, plan));
      var d' := OnWrite(d, p, plan);
      assert HistoryOf(d') == Step(HistoryOf(d), DoEnqueue(p, plan));
      if plan.Some? {
        var c := d.connection.value;
        forall r, m | m in LaneOf(d'.trace.epoch, r).accepted
          ensures Accept(c, r, m) in d'.trace.accepts
        {
          if m in LaneOf(d.trace.epoch, r).accepted {
            assert Accept(c, r, m) in d.trace.accepts;
          }
        }
        forall put | put in d'.trace.puts ensures PutJustified(d'.trace, put) {
          assert PutJustified(d.trace, put);
          var m, k: nat :| Accept(put.connection, put.priority, m) in d.trace.accepts && k < |m.chunks|
              && put.fragment == FragmentAt(m, k);
          assert Accept(put.connection, put.priority, m) in d'.trace.accepts;
        }
      }
    }
  }

  /** The pending fragment of a run belongs to a message of the current epoch. */
  lemma PendingFromEpoch(h: History) returns (m: Message, k: nat)
    requires HistoryInv(h) && h.tx.pending.Some?
    ensures m in LaneOf(h.epoch, h.tx.pending.value.priority).accepted
    ensures k < |m.chunks| && h.tx.pending.value.fragment == FragmentAt(m, k)
  {
    var p := h.tx.pending.value.priority;
    assert LaneOk(h, p);
    var q := QueueOf(h.tx, p);
    m, k := q[0].message, q[0].next - 1;
    assert m == LaneOf(h.epoch, p).accepted[|LaneOf(h.epoch, p).completed|];
  }

  lemma PrepareEffect(tx: Scheduler)
    requires Pick(tx).Some?
    ensures var (tx', r) := PrepareNext(tx);
            && tx'.faulted == tx.faulted
            && (r.Ok? ==> r.value.Some? && tx'.pending == r.value)
  {
  }

  lemma TxReadyKeeps(d: Driver, written: bool)
    requires DriverInv(d) && d.connection.Some? && Pick(d.tx).Some?
    ensures DriverInv(OnTxReady(d, written))
  {
    var d1 := Tx(d, DoPrepare);
    StepKeepsHistory(HistoryOf(d), DoPrepare);
    PrepareEffect(d.tx);
    assert HistoryOf(d1) == Step(HistoryOf(d), DoPrepare);
    var r := PrepareNext(d.tx).1;
    if r.Err? {
      LogsGrow(d.trace, d1.trace);
      assert DriverInv(d1);
      FaultKeeps(d1);
    } else {
      var prepared := r.value.value;
      var m, k := PendingFromEpoch(HistoryOf(d1));
      var put := Put(d.connection.value, prepared.priority, prepared.fragment);
      var d2 := d1.(trace := d1.trace.(puts := d1.trace.puts + [put]));
      PutLogged(d1.trace, d2.trace, put, m, k);
      assert HistoryOf(d2) == HistoryOf(d1);
      assert DriverInv(d2);
      if written {
        ConfirmKeeps(d2);
      } else {
        FaultKeeps(d2);
      }
    }
  }

  lemma PutLogged(t: Trace, t': Trace, put: Put, m: Message, k: nat)
    requires LogsSafe(t) && t' == t.(puts := t.puts + [put])
    requires Accept(put.connection, put.priority, m) in t.accepts && k < |m.chunks| && put.fragment == FragmentAt(m, k)
    ensures LogsSafe(t')
  {
    forall other | other in t'.puts ensures PutJustified(t', other) {
      if other in t.puts {
        assert PutJustified(t, other);
        var n, i: nat :| Accept(other.connection, other.priority, n) in t.accepts && i < |n.chunks|
            && other.fragment == FragmentAt(n, i);
        assert Accept(other.connection, other.priority, n) in t'.accepts;
      } else {
        assert Accept(put.connection, put.priority, m) in t'.accepts;
      }
    }
  }

  lemma ConfirmKeeps(d: Driver)
    requires DriverInv(d)
    ensures DriverInv(Tx(d, DoConfirm))
  {
    StepKeepsHistory(HistoryOf(d), DoConfirm);
    assert HistoryOf(Tx(d, DoConfirm)) == Step(HistoryOf(d), DoConfirm);
    LogsGrow(d.trace, Tx(d, DoConfirm).trace);
  }

  lemma HandleKeeps(d: Driver, event: Event)
    requires DriverInv(d)
    ensures DriverInv(Handle(d, event))
  {
    match event
    case StartScan(start) => ScanKeeps(d, Attempt(NotVisible, start, false));
    case StopScan(stopped) => StopKeeps(d, stopped);
    case Connect(attempt) =>
      FaultKeeps(d);
      TryConnectKeeps(FaultAndDrop(d).(pendingConnect := true), attempt, true);
    case Disconnect(stopped) =>
      FaultKeeps(d);
      StopKeeps(FaultAndDrop(d).(pendingConnect := false), stopped);
    case WriteMessage(p, plan) => WriteKeeps(d, p, plan);
    case TxReady(written) =>
      if d.connection.Some? && Pick(d.tx).Some? {
        TxReadyKeeps(d, written);
      }
    case Refresh(expired, stopped, attempt, link) => RefreshKeeps(d, expired, stopped, attempt, link);
  }

  lemma RefreshKeeps(d: Driver, expired: bool, stopped: bool, attempt: Attempt, link: LinkCheck)
    requires DriverInv(d)
    ensures DriverInv(OnRefresh(d, expired, stopped, attempt, link))
  {
    if d.pendingConnect {
      if expired {
        StopKeeps(d.(pendingConnect := false), stopped);
      } else {
        TryConnectKeeps(d, attempt, false);
      }
    }
    var d1 :=
      if !d.pendingConnect then d
      else if expired then StopOwned(d.(pendingConnect := false), stopped)
      else TryConnect(d, attempt, false);
    if d1.connection.Some? && link != Alive {
      FaultKeeps(d1);
    }
  }

  lemma {:induction false} LoopKeeps(events: seq<Event>)
    ensures DriverInv(Loop(events))
  {
    if events == [] {
      RunKeepsHistory([]);
      assert HistoryOf(InitialDriver) == InitialHistory;
    } else {
      LoopKeeps(events[..|events| - 1]);
      HandleKeeps(Loop(events[..|events| - 1]), events[|events| - 1]);
    }
  }

  /**
   At every loop head the stream is open exactly while a connection is installed,
   a pending connect excludes a connection, a faulted stream is empty, every
   fragment offered to a connection belongs to a message accepted for that same
   connection, and discovery is only stopped if this driver started it.
   */
  lemma DriverLoopIsSafe(events: seq<Event>)
    ensures var d := Loop(events);
            && (d.connection.Some? <==> !d.tx.faulted)
            && (d.pendingConnect ==> d.connection.None?)
            && (d.tx.faulted ==> Pick(d.tx).None? && d.tx.pending.None?)
            && (forall put :: put in d.trace.puts ==> PutJustified(d.trace, put))
            && (forall i :: 0 <= i < |d.trace.stops| ==> d.trace.stops[i])
            && EpochDelivered(d.trace.epoch)
  {
    LoopKeeps(events);
    HistoryDelivers(HistoryOf(Loop(events)));
  }

  /** Leaving the loop closes the stream, drops the connection and stops nothing the driver did not start. */
  lemma FinishIsSafe(events: seq<Event>, stopped: bool)
    ensures var d := Finish(Loop(events), stopped);
            && d.connection.None? && d.tx.faulted && Pick(d.tx).None?
            && (forall i :: 0 <= i < |d.trace.stops| ==> d.trace.stops[i])
            && (stopped && Loop(events).scan == Owned ==> !d.trace.discovering)
  {
    LoopKeeps(events);
    FaultKeeps(Loop(events));
  }

  // ---- Discovery that nobody stops ------------------------------------------

  /** The driver's own discovery runs on although the driver no longer counts it as its own. */
  predicate Orphaned(d: Driver) {
    d.trace.discovering && d.scan != Owned
  }

  /** The event makes a connect attempt. */
  predicate Attempts(d: Driver, e: Event) {
    e.Connect? || (e.Refresh? && d.pendingConnect && !e.expired)
  }

  /** A connect succeeds over owned discovery and the stop that goes with it fails. */
  predicate Orphans(d: Driver, e: Event) {
    Attempts(d, e) && d.scan == Owned && e.attempt.answer == Connected(false)
  }

  /** Discovery is started anew as the driver's own, or the adapter proxy that held it is dropped. */
  predicate Reclaims(d: Driver, e: Event) {
    || (e.StartScan? && d.scan == Idle && e.start == Started)
    || (Attempts(d, e) && e.attempt.answer == Retryable && e.attempt.reopened)
    || (e.Connect? && d.scan == Idle && e.attempt.answer == NotVisible && e.attempt.start == Started)
  }

  lemma OrphanStep(d: Driver, e: Event)
    requires ScanSafe(d)
    ensures Orphaned(Handle(d, e)) <==> Orphans(d, e) || (Orphaned(d) && !Reclaims(d, e))
  {
  }

  /** The orphaning step of a run: nothing after it takes discovery back. */
  ghost predicate OrphanedAt(events: seq<Event>, k: nat)
    requires k < |events|
  {
    && Orphans(Loop(events[..k]), events[k])
    && forall j :: k < j < |events| ==> !Reclaims(Loop(events[..j]), events[j])
  }

  lemma {:induction false} OrphanedIff(events: seq<Event>)
    ensures Orphaned(Loop(events)) <==> exists k :: 0 <= k < |events| && OrphanedAt(events, k)
  {
    if events != [] {
      var n := |events| - 1;
      var before := events[..n];
      OrphanedIff(before);
      LoopKeeps(before);
      OrphanStep(Loop(before), events[n]);
      forall k | 0 <= k < n
        ensures OrphanedAt(events, k) <==> OrphanedAt(before, k) && !Reclaims(Loop(before), events[n])
      {
        OrphanedEarlier(events, k);
      }
      assert OrphanedAt(events, n) <==> Orphans(Loop(before), events[n]);
    }
  }

  lemma OrphanedEarlier(events: seq<Event>, k: nat)
    requires k + 1 < |events|
    ensures var before := events[..|events| - 1];
            OrphanedAt(events, k) <==> OrphanedAt(before, k) && !Reclaims(Loop(before), events[|events| - 1])
  {
    var before := events[..|events| - 1];
    forall j | k <= j < |before| ensures events[..j] == before[..j] && events[j] == before[j] {
    }
  }

  /**
   Discovery of the driver's own outlives the driver exactly when its last stop fails or
   a connect orphaned it and nothing after that took it back.
   */
  lemma DiscoveryOutlivesIff(events: seq<Event>, stopped: bool)
    ensures Finish(Loop(events), stopped).trace.discovering
            <==> (if Loop(events).scan == Owned then !stopped
                  else exists k :: 0 <= k < |events| && OrphanedAt(events, k))
  {
    LoopKeeps(events);
    OrphanedIff(events);
  }

  /** It does happen: one failed stop after a connect, and the final stop is never called. */
  lemma DiscoveryCanOutlive(stopped: bool)
    ensures var connect := Connect(Attempt(Connected(false), Started, false));
            var d := Finish(Loop([StartScan(Started), connect]), stopped);
            d.trace.discovering && d.trace.stops == [true]
  {
    var scan, connect := StartScan(Started), Connect(Attempt(Connected(false), Started, false));
    assert [scan, connect][..1] == [scan] && [scan][..0] == [];
    assert Loop([scan]) == Handle(InitialDriver, scan);
    assert Loop([scan, connect]) == Handle(Loop([scan]), connect);
  }

  /** The driver thread's variables. The trace is what the platform would have recorded. */
  class DriverLoop {
    const tx: DriverTxScheduler
    var connected: bool
    var pendingConnect: bool
    var scan: Scan
    ghost var number: nat
    ghost var trace: Trace

    ghost function State(): Driver
      reads this, tx
    {
      Driver(tx.State(), if connected then Some(number) else None, pendingConnect, scan, trace)
    }

    constructor ()
      ensures State() == InitialDriver && fresh(tx)
    {
      tx := new DriverTxScheduler();
      connected := false;
      pendingConnect := false;
      scan := Idle;
      number := 0;
      trace := InitialDriver.trace;
    }

    method EnsureScanActive(start: StartAnswer) returns (ok: bool)
      modifies this
      ensures (State(), ok) == EnsureScan(old(State()), start)
    {
      if scan != Idle {
        return true;
      }
      match start {
        case Started =>
          scan := Owned;
          trace := trace.(discovering := true);
        case AlreadyActive => scan := Adopted;
        case StartFailed => return false;
      }
      return true;
    }

    method StopOwnedScan(stopped: bool)
      modifies this
      ensures State() == StopOwned(old(State()), stopped)
    {
      match scan {
        case Idle =>
        case Adopted => scan := Idle;
        case Owned =>
          trace := CallStop(State(), stopped).trace;
          if stopped {
            scan := Idle;
          }
      }
    }

    method FaultAndDisconnect()
      modifies this, tx
      ensures State() == FaultAndDrop(old(State()))
    {
      trace := Tx(State(), DoFault).trace;
      tx.FaultStream();
      connected := false;
    }

    method InstallConnection()
      modifies this, tx
      ensures State() == Install(old(State()))
    {
      ghost var after := Install(State());
      pendingConnect := false;
      connected, number := true, trace.installs;
      tx.OpenFresh();
      trace := after.trace;
    }

    method TryConnectVisible(attempt: Attempt, first: bool)
      modifies this, tx
      ensures State() == TryConnect(old(State()), attempt, first)
    {
      match attempt.answer {
        case Connected(stopped) =>
          if scan == Owned {
            trace := CallStop(State(), stopped).trace;
          }
          scan := Idle;
          InstallConnection();
        case NotVisible =>
          if first {
            var ok := EnsureScanActive(attempt.start);
            if !ok {
              pendingConnect := false;
            }
          }
        case Retryable =>
          var ok := attempt.reopened;
          if ok {
            scan := Idle;
            trace := trace.(discovering := false);
            ok := EnsureScanActive(attempt.start);
          }
          if !ok {
            pendingConnect := false;
          }
        case Fatal => pendingConnect := false;
      }
    }

    method OnWriteMessage(p: Priority, plan: Option<Message>) returns (r: Result<(), TxError>)
      requires DriverInv(State())
      modifies this, tx
      ensures State() == OnWrite(old(State()), p, plan)
      ensures r.Ok? <==> old(connected) && plan.Some?
      ensures r.Err? && old(connected) ==> r.error == NotFragmentable
    {
      if !connected {
        return Err(StreamFaulted);
      }
      ghost var after := OnWrite(State(), p, plan);
      r := tx.EnqueueReserved(p, plan);
      trace := after.trace;
    }

    /** One writable slot: `platformOk` is whether the peripheral accepts the write. */
    method OnWritable(platformOk: bool) returns (completed: Option<u16>)
      modifies this, tx
      ensures State() == OnTxReady(old(State()), platformOk)
      ensures completed == Reported(old(State()), platformOk)
    {
      ghost var before := State();
      completed := None;
      var empty := tx.IsEmpty();
      if !connected || empty {
        return;
      }
      var r := tx.Prepare();
      if r.Err? || (r.value.Some? && !platformOk) {
        tx.FaultStream();
        connected := false;
      } else if r.value.Some? {
        completed := tx.Confirm();
      }
      trace := OnTxReady(before, platformOk).trace;
    }

    method OnRefreshTick(expired: bool, stopped: bool, attempt: Attempt, link: LinkCheck)
      modifies this, tx
      ensures State() == OnRefresh(old(State()), expired, stopped, attempt, link)
    {
      if pendingConnect {
        if expired {
          pendingConnect := false;
          StopOwnedScan(stopped);
        } else {
          TryConnectVisible(attempt, false);
        }
      }
      if connected && link != Alive {
        FaultAndDisconnect();
      }
    }

    /** One turn of the loop. */
    method HandleEvent(event: Event) returns (completed: Option<u16>)
      requires DriverInv(State())
      modifies this, tx
      ensures State() == Handle(old(State()), event) && DriverInv(State())
      ensures completed == if event.TxReady? then Reported(old(State()), event.written) else None
    {
      HandleKeeps(State(), event);
      completed := None;
      match event {
        case StartScan(start) => var _ := EnsureScanActive(start);
        case StopScan(stopped) =>
          if !pendingConnect {
            StopOwnedScan(stopped);
          }
        case Connect(attempt) =>
          FaultAndDisconnect();
          pendingConnect := true;
          TryConnectVisible(attempt, true);
        case Disconnect(stopped) =>
          FaultAndDisconnect();
          pendingConnect := false;
          StopOwnedScan(stopped);
        case WriteMessage(p, plan) => var _ := OnWriteMessage(p, plan);
        case TxReady(written) => completed := OnWritable(written);
        case Refresh(expired, stopped, attempt, link) => OnRefreshTick(expired, stopped, attempt, link);
      }
    }
  }
}
