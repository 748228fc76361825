/**
 Connections as the peripheral sees them: when one is installed, and what is put to it.
 Over every run a connection exists exactly while the last event that settled it was a
 successful connect, and each connection is given, lane by lane, a prefix of the
 fragments of exactly the messages accepted for it.
 */
module BleConnections {
  import opened Prelude
  import opened BleFragments
  import opened BleScheduler
  import opened BleDelivery
  import opened BleDriver

  // ---- When a connection is installed ----------------------------------------

  predicate HasWork(tx: Scheduler) {
    tx.control != [] || tx.realtime != [] || tx.repair != []
  }

  /** A connect attempt succeeds, and the link check that may go with it finds the link alive. */
  predicate Installs(d: Driver, e: Event) {
    Attempts(d, e) && e.attempt.answer.Connected? && (e.Refresh? ==> e.link == Alive)
  }

  /** A new connect, a disconnect, a failed write, a framing fault or a lost link. */
  predicate Drops(d: Driver, e: Event) {
    || e.Connect?
    || e.Disconnect?
    || (e.TxReady? && HasWork(d.tx) && (!e.written || PrepareNext(d.tx).1.Err?))
    || (e.Refresh? && e.link != Alive)
  }

  lemma ConnectedStep(d: Driver, e: Event)
    requires d.pendingConnect ==> d.connection.None?
    ensures Handle(d, e).connection.Some? <==> Installs(d, e) || (d.connection.Some? && !Drops(d, e))
  {
  }

  /** The installing event of a run: nothing after it drops the connection. */
  ghost predicate InstalledAt(events: seq<Event>, k: nat)
    requires k < |events|
  {
    && Installs(Loop(events[..k]), events[k])
    && forall j :: k < j < |events| ==> !Drops(Loop(events[..j]), events[j])
  }

  lemma InstalledEarlier(events: seq<Event>, k: nat)
    requires k + 1 < |events|
    ensures var before := events[..|events| - 1];
            InstalledAt(events, k) <==> InstalledAt(before, k) && !Drops(Loop(before), events[|events| - 1])
  {
    var before := events[..|events| - 1];
    forall j | k <= j < |before| ensures events[..j] == before[..j] && events[j] == before[j] {
    }
  }

  /** A connection is installed exactly when the last event that settled it was a successful connect. */
  lemma {:induction false} ConnectedIff(events: seq<Event>)
    ensures Loop(events).connection.Some? <==> exists k :: 0 <= k < |events| && InstalledAt(events, k)
  {
    if events != [] {
      var n := |events| - 1;
      var before := events[..n];
      ConnectedIff(before);
      LoopKeeps(before);
      ConnectedStep(Loop(before), events[n]);
      forall k | 0 <= k < n
        ensures InstalledAt(events, k) <==> InstalledAt(before, k) && !Drops(Loop(before), events[n])
      {
        InstalledEarlier(events, k);
      }
      assert InstalledAt(events, n) <==> Installs(Loop(before), events[n]);
    }
  }

  // ---- A connect that is still pending -----------------------------------------

  /** An attempt that leaves the connect pending: the board may still show up while discovery runs. */
  predicate Waits(d: Driver, e: Event) {
    Attempts(d, e)
    && match e.attempt.answer
       case NotVisible => e.Refresh? || d.scan != Idle || e.attempt.start != StartFailed
       case Retryable => e.attempt.reopened && e.attempt.start != StartFailed
       case Connected(_) => false
       case Fatal => false
  }

  lemma PendingStep(d: Driver, e: Event)
    ensures Handle(d, e).pendingConnect
            <==> Waits(d, e) || (d.pendingConnect && !e.Connect? && !e.Disconnect? && !e.Refresh?)
  {
  }

  lemma {:induction false} PendingScans(events: seq<Event>)
    ensures Loop(events).pendingConnect ==> Loop(events).scan != Idle
  {
    if events != [] {
      PendingScans(events[..|events| - 1]);
      PendingScansStep(Loop(events[..|events| - 1]), events[|events| - 1]);
    }
  }

  lemma PendingScansStep(d: Driver, e: Event)
    requires d.pendingConnect ==> d.scan != Idle
    ensures Handle(d, e).pendingConnect ==> Handle(d, e).scan != Idle
  {
  }

  /**
   A connect stays pending exactly while the last attempt left it so and neither the
   deadline nor a disconnect ended it, and discovery runs all the while.
   */
  lemma PendingIff(events: seq<Event>, e: Event)
    ensures var d, d' := Loop(events), Loop(events + [e]);
            && (d'.pendingConnect <==>
                  Waits(d, e) || (d.pendingConnect && !e.Connect? && !e.Disconnect? && !e.Refresh?))
            && (d'.pendingConnect ==> d'.scan != Idle && d'.connection.None?)
  {
    LoopExtend(events, e);
    PendingStep(Loop(events), e);
    PendingScans(events + [e]);
    LoopKeeps(events + [e]);
  }

  // ---- Whose discovery it is ------------------------------------------------------

  /** What asking the platform to scan makes of discovery: the driver's own, or one it shares. */
  predicate Yields(start: StartAnswer, scan: Scan) {
    (scan == Owned && start == Started) || (scan == Adopted && start == AlreadyActive)
  }

  predicate Begins(d: Driver, e: Event, scan: Scan) {
    || (e.StartScan? && d.scan == Idle && Yields(e.start, scan))
    || (e.Connect? && d.scan == Idle && e.attempt.answer == NotVisible && Yields(e.attempt.start, scan))
    || (Attempts(d, e) && e.attempt.answer == Retryable && e.attempt.reopened && Yields(e.attempt.start, scan))
  }

  /** The user, a disconnect or an expired connect asks for discovery to stop. */
  predicate AsksToStop(d: Driver, e: Event) {
    (e.StopScan? && !d.pendingConnect) || e.Disconnect? || (e.Refresh? && d.pendingConnect && e.expired)
  }

  /** Own discovery ends once its stop succeeds, shared discovery at once; a connection or a new adapter ends both. */
  predicate Ends(d: Driver, e: Event) {
    || (AsksToStop(d, e) && (d.scan == Owned ==> e.stopped))
    || (Attempts(d, e) && (e.attempt.answer.Connected? || (e.attempt.answer == Retryable && e.attempt.reopened)))
  }

  lemma ScanStep(d: Driver, e: Event, scan: Scan)
    requires scan != Idle
    ensures Handle(d, e).scan == scan <==> Begins(d, e, scan) || (d.scan == scan && !Ends(d, e))
  {
  }

  /** The platform is told to stop exactly for own discovery that is asked to stop or no longer needed. */
  lemma StopsStep(d: Driver, e: Event)
    ensures var stop := d.scan == Owned && (AsksToStop(d, e) || (Attempts(d, e) && e.attempt.answer.Connected?));
            Handle(d, e).trace.stops == d.trace.stops + if stop then [d.trace.discovering] else []
  {
    assert d.trace.stops + [] == d.trace.stops;
  }

  /**
   In every run discovery is the driver's own, or shared, exactly from the answer that made
   it so until it is stopped, a connection is made or the adapter is reopened; and the
   platform is told to stop own discovery at exactly the right moments.
   */
  lemma ScanIff(events: seq<Event>, e: Event, scan: Scan)
    requires scan != Idle
    ensures var d, d' := Loop(events), Loop(events + [e]);
            && (d'.scan == scan <==> Begins(d, e, scan) || (d.scan == scan && !Ends(d, e)))
            && d'.trace.stops
               == d.trace.stops
                  + if d.scan == Owned && (AsksToStop(d, e) || (Attempts(d, e) && e.attempt.answer.Connected?))
                    then [true] else []
  {
    LoopExtend(events, e);
    LoopKeeps(events);
    ScanStep(Loop(events), e, scan);
    StopsStep(Loop(events), e);
  }

  // ---- What is accepted for and put to a connection ------------------------------

  function AcceptedBy(accepts: seq<Accept>, c: nat, p: Priority): seq<Message> {
    if accepts == [] then []
    else
      var last := accepts[|accepts| - 1];
      AcceptedBy(accepts[..|accepts| - 1], c, p)
      + if last.connection == c && last.priority == p then [last.message] else []
  }

  function PutBy(puts: seq<Put>, c: nat, p: Priority): seq<Fragment> {
    if puts == [] then []
    else
      var last := puts[|puts| - 1];
      PutBy(puts[..|puts| - 1], c, p) + if last.connection == c && last.priority == p then [last.fragment] else []
  }

  lemma {:induction false} NoneAccepted(accepts: seq<Accept>, c: nat, p: Priority)
    requires forall a :: a in accepts ==> a.connection < c
    ensures AcceptedBy(accepts, c, p) == []
  {
    if accepts != [] {
      assert accepts[|accepts| - 1] in accepts;
      NoneAccepted(accepts[..|accepts| - 1], c, p);
    }
  }

  lemma {:induction false} NonePut(puts: seq<Put>, c: nat, p: Priority)
    requires forall put :: put in puts ==> put.connection < c
    ensures PutBy(puts, c, p) == []
  {
    if puts != [] {
      assert puts[|puts| - 1] in puts;
      NonePut(puts[..|puts| - 1], c, p);
    }
  }

  lemma AcceptOne(accepts: seq<Accept>, a: Accept, c: nat, p: Priority)
    ensures AcceptedBy(accepts + [a], c, p)
         == AcceptedBy(accepts, c, p) + if a.connection == c && a.priority == p then [a.message] else []
  {
    assert (accepts + [a])[..|accepts|] == accepts;
  }

  lemma PutOne(puts: seq<Put>, put: Put, c: nat, p: Priority)
    ensures PutBy(puts + [put], c, p)
         == PutBy(puts, c, p) + if put.connection == c && put.priority == p then [put.fragment] else []
  {
    assert (puts + [put])[..|puts|] == puts;
  }

  /** The stream of the installed connection holds exactly what was accepted for it and put to it. */
  ghost predicate LaneMirrors(d: Driver, c: nat, p: Priority) {
    && LaneOf(d.trace.epoch, p).accepted == AcceptedBy(d.trace.accepts, c, p)
    && LaneOf(d.trace.epoch, p).written == PutBy(d.trace.puts, c, p)
  }

  ghost predicate Mirrors(d: Driver) {
    d.connection.Some? ==> d.tx.pending.None? && forall p :: LaneMirrors(d, d.connection.value, p)
  }

  ghost predicate Given(t: Trace, c: nat, p: Priority) {
    PutBy(t.puts, c, p) <= Train(AcceptedBy(t.accepts, c, p))
  }

  ghost predicate ConnInv(d: Driver) {
    && DriverInv(d)
    && Mirrors(d)
    && (forall put :: put in d.trace.puts ==> put.connection < d.trace.installs)
    && forall c: nat, p :: Given(d.trace, c, p)
  }

  /** Steps of the driver that leave the stream and its logs alone. */
  lemma Untouched(d: Driver, d': Driver)
    requires ConnInv(d) && DriverInv(d')
    requires d'.trace.accepts == d.trace.accepts && d'.trace.puts == d.trace.puts && d'.trace.epoch == d.trace.epoch
    requires d'.trace.installs == d.trace.installs && d'.tx == d.tx && d'.connection == d.connection
    ensures ConnInv(d')
  {
    forall c: nat, p ensures Given(d'.trace, c, p) {
      assert Given(d.trace, c, p);
    }
    if d.connection.Some? {
      forall p ensures LaneMirrors(d', d.connection.value, p) {
        assert LaneMirrors(d, d.connection.value, p);
      }
    }
  }

  /** Without a connection only the logs matter. */
  lemma Dropped(d: Driver, d': Driver)
    requires ConnInv(d) && DriverInv(d') && d'.connection.None?
    requires d'.trace.accepts == d.trace.accepts && d'.trace.puts == d.trace.puts
    requires d'.trace.installs >= d.trace.installs
    ensures ConnInv(d')
  {
    forall c: nat, p ensures Given(d'.trace, c, p) {
      assert Given(d.trace, c, p);
    }
  }

  lemma FaultConn(d: Driver)
    requires ConnInv(d)
    ensures ConnInv(FaultAndDrop(d)) && ConnInv(FaultAndDrop(d).(pendingConnect := true))
    ensures ConnInv(FaultAndDrop(d).(pendingConnect := false))
  {
    FaultKeeps(d);
    Dropped(d, FaultAndDrop(d));
    Dropped(d, FaultAndDrop(d).(pendingConnect := true));
    Dropped(d, FaultAndDrop(d).(pendingConnect := false));
  }

  lemma InstallConn(d: Driver)
    requires ConnInv(d) && d.connection.None?
    ensures ConnInv(Install(d))
  {
    InstallKeeps(d);
    var d' := Install(d);
    var c := d.trace.installs;
    forall p ensures LaneMirrors(d', c, p) {
      NoneAccepted(d.trace.accepts, c, p);
      NonePut(d.trace.puts, c, p);
    }
    forall b: nat, p ensures Given(d'.trace, b, p) {
      assert Given(d.trace, b, p);
    }
  }

  lemma ScanConn(d: Driver, attempt: Attempt)
    requires ConnInv(d)
    ensures ConnInv(EnsureScan(d, attempt.start).0) && ConnInv(EnsureScan(d, attempt.start).0.(pendingConnect := false))
    ensures ConnInv(ReopenAndScan(d, attempt).0) && ConnInv(ReopenAndScan(d, attempt).0.(pendingConnect := false))
  {
    ScanKeeps(d, attempt);
    Untouched(d, EnsureScan(d, attempt.start).0);
    Untouched(d, EnsureScan(d, attempt.start).0.(pendingConnect := false));
    Untouched(d, ReopenAndScan(d, attempt).0);
    Untouched(d, ReopenAndScan(d, attempt).0.(pendingConnect := false));
  }

  lemma StopConn(d: Driver, stopped: bool)
    requires ConnInv(d)
    ensures ConnInv(StopOwned(d, stopped))
  {
    StopKeeps(d, stopped);
    Untouched(d, StopOwned(d, stopped));
  }

  lemma TryConnectConn(d: Driver, attempt: Attempt, first: bool)
    requires ConnInv(d) && d.connection.None?
    ensures ConnInv(TryConnect(d, attempt, first))
  {
    ScanConn(d, attempt);
    match attempt.answer
    case Connected(stopped) =>
      var d' := (if d.scan == Owned then CallStop(d, stopped) else d).(scan := Idle);
      assert HistoryOf(d') == HistoryOf(d);
      LogsGrow(d.trace, d'.trace);
      Untouched(d, d');
      InstallConn(d');
    case NotVisible =>
    case Retryable =>
    case Fatal => Dropped(d, d.(pendingConnect := false));
  }

  lemma TrainSnoc(messages: seq<Message>, m: Message)
    ensures Train(messages) <= Train(messages + [m])
  {
    assert (messages + [m])[..|messages|] == messages;
  }

  lemma GivenGrows(t: Trace, t': Trace, a: Accept, c: nat, p: Priority)
    requires Given(t, c, p) && t'.puts == t.puts && t'.accepts == t.accepts + [a]
    ensures Given(t', c, p)
  {
    AcceptOne(t.accepts, a, c, p);
    var before := AcceptedBy(t.accepts, c, p);
    if a.connection == c && a.priority == p {
      TrainSnoc(before, a.message);
      PrefixOfPrefix(PutBy(t.puts, c, p), Train(before), Train(before + [a.message]));
    } else {
      assert AcceptedBy(t'.accepts, c, p) == before;
    }
  }

  lemma PrefixOfPrefix(a: seq<Fragment>, b: seq<Fragment>, c: seq<Fragment>)
    requires a <= b <= c
    ensures a <= c
  {
  }

  /** A message written to the installed connection joins the end of its own lane, and nothing else changes. */
  lemma WriteEffect(d: Driver, p: Priority, m: Message, r: Priority)
    requires DriverInv(d) && d.connection.Some?
    ensures var d' := OnWrite(d, p, Some(m));
            && d'.trace.accepts == d.trace.accepts + [Accept(d.connection.value, p, m)]
            && d'.trace.puts == d.trace.puts && d'.trace.installs == d.trace.installs
            && d'.connection == d.connection && d'.tx.pending == d.tx.pending
            && LaneOf(d'.trace.epoch, r).accepted
               == LaneOf(d.trace.epoch, r).accepted + (if r == p then [m] else [])
            && LaneOf(d'.trace.epoch, r).written == LaneOf(d.trace.epoch, r).written
  {
  }

  lemma WriteConn(d: Driver, p: Priority, m: Message)
    requires ConnInv(d) && d.connection.Some?
    ensures ConnInv(OnWrite(d, p, Some(m)))
  {
    WriteKeeps(d, p, Some(m));
    var d' := OnWrite(d, p, Some(m));
    var c := d.connection.value;
    WriteEffect(d, p, m, p);
    forall b: nat, r ensures Given(d'.trace, b, r) {
      assert Given(d.trace, b, r);
      GivenGrows(d.trace, d'.trace, Accept(c, p, m), b, r);
    }
    forall r ensures LaneMirrors(d', c, r) {
      assert LaneMirrors(d, c, r);
      WriteEffect(d, p, m, r);
      AcceptOne(d.trace.accepts, Accept(c, p, m), c, r);
    }
  }

  /** A writable slot with work and nothing pending either meets a framing fault or puts one fragment. */
  lemma SlotPuts(d: Driver)
    requires ConnInv(d) && d.connection.Some? && HasWork(d.tx)
    ensures var r := PrepareNext(d.tx).1; r.Ok? ==> r.value.Some?
    ensures Pick(d.tx).Some?
  {
    PrepareEffect(d.tx);
  }

  lemma PrepareLeavesLanes(d: Driver)
    ensures Tx(d, DoPrepare).trace == d.trace && Tx(d, DoPrepare).connection == d.connection
  {
  }

  /** The put of a slot, confirmed: one more written fragment on its lane, none on the others. */
  lemma ConfirmWrites(d: Driver, p: Priority)
    requires d.tx.pending.Some?
    ensures var d' := Tx(d, DoConfirm);
            var prepared := d.tx.pending.value;
            && LaneOf(d'.trace.epoch, p).accepted == LaneOf(d.trace.epoch, p).accepted
            && LaneOf(d'.trace.epoch, p).written
               == LaneOf(d.trace.epoch, p).written + (if prepared.priority == p then [prepared.fragment] else [])
            && d'.tx.pending.None? && d'.connection == d.connection
            && d'.trace.accepts == d.trace.accepts && d'.trace.puts == d.trace.puts
            && d'.trace.installs == d.trace.installs
  {
  }

  /** The driver between putting a prepared fragment and hearing how it went. */
  function AfterPut(d: Driver): Driver
    requires d.connection.Some? && PrepareNext(d.tx).1.Ok? && PrepareNext(d.tx).1.value.Some?
  {
    var d1 := Tx(d, DoPrepare);
    var prepared := PrepareNext(d.tx).1.value.value;
    d1.(trace := d1.trace.(puts := d1.trace.puts + [Put(d.connection.value, prepared.priority, prepared.fragment)]))
  }

  lemma AfterPutKeeps(d: Driver)
    requires ConnInv(d) && d.connection.Some? && HasWork(d.tx) && PrepareNext(d.tx).1.Ok?
    ensures PrepareNext(d.tx).1.value.Some? && DriverInv(AfterPut(d))
    ensures AfterPut(d).tx.pending == PrepareNext(d.tx).1.value
    ensures AfterPut(d).trace.epoch == d.trace.epoch && AfterPut(d).trace.accepts == d.trace.accepts
    ensures AfterPut(d).connection == d.connection && AfterPut(d).trace.installs == d.trace.installs
  {
    SlotPuts(d);
    PrepareEffect(d.tx);
    StepKeepsHistory(HistoryOf(d), DoPrepare);
    var d1 := Tx(d, DoPrepare);
    assert HistoryOf(d1) == Step(HistoryOf(d), DoPrepare);
    PrepareLeavesLanes(d);
    var m, k := PendingFromEpoch(HistoryOf(d1));
    var prepared := PrepareNext(d.tx).1.value.value;
    var put := Put(d.connection.value, prepared.priority, prepared.fragment);
    PutLogged(d1.trace, AfterPut(d).trace, put, m, k);
    assert HistoryOf(AfterPut(d)) == HistoryOf(d1);
  }

  /** Confirmed or not, what has been put is still a prefix of what was accepted. */
  lemma PutsStayGiven(d: Driver)
    requires ConnInv(d) && d.connection.Some? && HasWork(d.tx) && PrepareNext(d.tx).1.Ok?
    requires PrepareNext(d.tx).1.value.Some?
    ensures forall c: nat, p :: Given(AfterPut(d).trace, c, p)
    ensures forall p :: LaneMirrors(Tx(AfterPut(d), DoConfirm), d.connection.value, p)
  {
    AfterPutKeeps(d);
    var d2 := AfterPut(d);
    var d3 := Tx(d2, DoConfirm);
    ConfirmKeeps(d2);
    HistoryDelivers(HistoryOf(d3));
    var put := d2.trace.puts[|d2.trace.puts| - 1];
    forall c: nat, p
      ensures Given(d2.trace, c, p)
      ensures c == d.connection.value ==> LaneMirrors(d3, c, p)
    {
      assert Given(d.trace, c, p) && LaneMirrors(d, d.connection.value, p);
      ConfirmWrites(d2, p);
      PutOne(d.trace.puts, put, c, p);
      assert LaneDelivered(LaneOf(d3.trace.epoch, p));
    }
  }

  lemma ReadyConn(d: Driver, written: bool)
    requires ConnInv(d) && d.connection.Some? && HasWork(d.tx)
    ensures ConnInv(OnTxReady(d, written))
  {
    TxReadyKeeps(d, written);
    SlotPuts(d);
    PrepareLeavesLanes(d);
    if PrepareNext(d.tx).1.Err? {
      Dropped(d, OnTxReady(d, written));
    } else {
      AfterPutKeeps(d);
      PutsStayGiven(d);
      var d' := OnTxReady(d, written);
      assert d' == if written then Tx(AfterPut(d), DoConfirm) else FaultAndDrop(AfterPut(d));
      if written {
        ConfirmWrites(AfterPut(d), Control);
      }
      assert d'.trace.puts == AfterPut(d).trace.puts && d'.trace.accepts == d.trace.accepts;
      forall c: nat, p ensures Given(d'.trace, c, p) {
        assert Given(AfterPut(d).trace, c, p);
      }
    }
  }

  lemma RefreshConn(d: Driver, e: Event)
    requires ConnInv(d) && e.Refresh?
    ensures ConnInv(Handle(d, e))
  {
    var d1 :=
      if !d.pendingConnect then d
      else if e.expired then StopOwned(d.(pendingConnect := false), e.stopped)
      else TryConnect(d, e.attempt, false);
    if d.pendingConnect {
      if e.expired {
        Dropped(d, d.(pendingConnect := false));
        StopConn(d.(pendingConnect := false), e.stopped);
      } else {
        TryConnectConn(d, e.attempt, false);
      }
    }
    if d1.connection.Some? && e.link != Alive {
      FaultConn(d1);
    }
  }

  lemma HandleConn(d: Driver, e: Event)
    requires ConnInv(d)
    ensures ConnInv(Handle(d, e))
  {
    match e
    case StartScan(start) => ScanConn(d, Attempt(NotVisible, start, false));
    case StopScan(stopped) => StopConn(d, stopped);
    case Connect(attempt) =>
      FaultConn(d);
      TryConnectConn(FaultAndDrop(d).(pendingConnect := true), attempt, true);
    case Disconnect(stopped) =>
      FaultConn(d);
      StopConn(FaultAndDrop(d).(pendingConnect := false), stopped);
    case WriteMessage(p, plan) =>
      if d.connection.Some? && plan.Some? {
        WriteConn(d, p, plan.value);
      }
    case TxReady(written) =>
      if d.connection.Some? && HasWork(d.tx) {
        ReadyConn(d, written);
      }
    case Refresh(_, _, _, _) => RefreshConn(d, e);
  }

  lemma {:induction false} LoopConn(events: seq<Event>)
    ensures ConnInv(Loop(events))
  {
    if events == [] {
      LoopKeeps([]);
    } else {
      LoopConn(events[..|events| - 1]);
      HandleConn(Loop(events[..|events| - 1]), events[|events| - 1]);
    }
  }

  // ---- Main results -----------------------------------------------------------------

  /**
   In every run and for every connection ever installed, what was put to it on a lane is a
   prefix of the fragments of the messages accepted for it on that lane, in order; and for
   the connection still installed nothing is lost in between: all that was put was
   confirmed, and what is queued is all that remains.
   */
  lemma EveryConnectionIsServed(events: seq<Event>, c: nat, p: Priority)
    ensures var d := Loop(events);
            && PutBy(d.trace.puts, c, p) <= Train(AcceptedBy(d.trace.accepts, c, p))
            && (d.connection == Some(c) ==>
                  && LaneOf(d.trace.epoch, p).accepted == AcceptedBy(d.trace.accepts, c, p)
                  && LaneOf(d.trace.epoch, p).written == PutBy(d.trace.puts, c, p)
                  && |LaneOf(d.trace.epoch, p).completed| + |QueueOf(d.tx, p)| == |AcceptedBy(d.trace.accepts, c, p)|)
  {
    LoopConn(events);
    var d := Loop(events);
    assert Given(d.trace, c, p);
    if d.connection == Some(c) {
      assert LaneMirrors(d, c, p) && LaneOk(HistoryOf(d), p);
    }
  }

  /** What the event adds to the log of accepted messages. */
  function Accepts(d: Driver, e: Event): seq<Accept> {
    if e.WriteMessage? && d.connection.Some? && e.plan.Some?
    then [Accept(d.connection.value, e.priority, e.plan.value)] else []
  }

  /** The event puts a fragment: a writable slot, a connection, something queued and no framing fault. */
  predicate Puts(d: Driver, e: Event) {
    e.TxReady? && d.connection.Some? && HasWork(d.tx) && PrepareNext(d.tx).1.Ok?
  }

  lemma AcceptStep(d: Driver, e: Event)
    requires ConnInv(d)
    ensures Handle(d, e).trace.accepts == d.trace.accepts + Accepts(d, e)
  {
    if Accepts(d, e) != [] {
      WriteEffect(d, e.priority, e.plan.value, Control);
    }
  }

  lemma PutStep(d: Driver, e: Event)
    requires ConnInv(d)
    ensures var puts := Handle(d, e).trace.puts;
            if Puts(d, e)
            then |puts| == |d.trace.puts| + 1 && puts[..|d.trace.puts|] == d.trace.puts
                 && puts[|d.trace.puts|].connection == d.connection.value
            else puts == d.trace.puts
  {
    if e.TxReady? && d.connection.Some? && HasWork(d.tx) {
      SlotPuts(d);
      PrepareLeavesLanes(d);
      if Puts(d, e) {
        AfterPutKeeps(d);
        ConfirmWrites(AfterPut(d), Control);
      }
    }
  }

  /** In any run a message written while connected is accepted for that connection, and only then. */
  lemma WrittenIsAccepted(events: seq<Event>, e: Event)
    ensures Loop(events + [e]).trace.accepts == Loop(events).trace.accepts + Accepts(Loop(events), e)
  {
    LoopExtend(events, e);
    LoopConn(events);
    AcceptStep(Loop(events), e);
  }

  /**
   In any run a fragment is put exactly when the slot is writable, a connection is
   installed, something is queued and it can be framed; it goes to that connection.
   */
  lemma SlotPutsOne(events: seq<Event>, e: Event)
    ensures var d := Loop(events);
            var puts := Loop(events + [e]).trace.puts;
            if Puts(d, e)
            then |puts| == |d.trace.puts| + 1 && puts[..|d.trace.puts|] == d.trace.puts
                 && puts[|d.trace.puts|].connection == d.connection.value
            else puts == d.trace.puts
  {
    LoopExtend(events, e);
    LoopConn(events);
    PutStep(Loop(events), e);
  }

  lemma LoopExtend(events: seq<Event>, e: Event)
    ensures Loop(events + [e]) == Handle(Loop(events), e)
  {
    assert (events + [e])[..|events|] == events;
  }

  /** The id a slot reports is that of the message it completed, if it completed one. */
  lemma ReportIsCompletion(events: seq<Event>, written: bool, p: Priority)
    requires var d := Loop(events); d.connection.Some? && Loop(events + [TxReady(written)]).connection.Some?
    ensures var d, d' := Loop(events), Loop(events + [TxReady(written)]);
            var done, done' := LaneOf(d.trace.epoch, p).completed, LaneOf(d'.trace.epoch, p).completed;
            done' == done || (Reported(d, written).Some? && done' == done + [Reported(d, written).value])
  {
    LoopExtend(events, TxReady(written));
    LoopConn(events);
    var d := Loop(events);
    if HasWork(d.tx) {
      SlotPuts(d);
    }
  }

  lemma QuietStep(d: Driver, e: Event)
    requires ConnInv(d) && d.connection.None? && !Installs(d, e)
    ensures var d' := Handle(d, e);
            d'.connection.None? && d'.trace.puts == d.trace.puts && d'.trace.accepts == d.trace.accepts
  {
    ConnectedStep(d, e);
    AcceptStep(d, e);
    PutStep(d, e);
  }

  /** No event of `more`, following `events`, installs a connection. */
  ghost predicate NeverInstalls(events: seq<Event>, more: seq<Event>) {
    forall k :: 0 <= k < |more| ==> NotInstalledAt(events, more, k)
  }

  ghost predicate NotInstalledAt(events: seq<Event>, more: seq<Event>, k: nat) {
    k < |more| ==> !Installs(Loop(events + more[..k]), more[k])
  }

  predicate Quiet(d: Driver, d': Driver) {
    d'.connection.None? && d'.trace.puts == d.trace.puts && d'.trace.accepts == d.trace.accepts
  }

  lemma LoopLater(events: seq<Event>, more: seq<Event>, n: nat)
    requires n < |more|
    ensures Loop(events + more[..n + 1]) == Handle(Loop(events + more[..n]), more[n])
  {
    assert events + more[..n + 1] == (events + more[..n]) + [more[n]];
    LoopExtend(events + more[..n], more[n]);
  }

  /** Nothing is accepted or put without a connection. */
  lemma {:induction false} QuietWithoutConnect(events: seq<Event>, more: seq<Event>, n: nat)
    requires Loop(events).connection.None? && NeverInstalls(events, more) && n <= |more|
    ensures Quiet(Loop(events), Loop(events + more[..n]))
    decreases n
  {
    if n == 0 {
      assert events + more[..0] == events;
    } else {
      QuietWithoutConnect(events, more, n - 1);
      assert NotInstalledAt(events, more, n - 1);
      LoopLater(events, more, n - 1);
      LoopConn(events + more[..n - 1]);
      QuietStep(Loop(events + more[..n - 1]), more[n - 1]);
    }
  }

  lemma DisconnectStep(d: Driver, stopped: bool)
    requires ConnInv(d)
    ensures var d' := Handle(d, Disconnect(stopped));
            && Quiet(d, d') && !d'.pendingConnect && d'.tx.faulted && !HasWork(d'.tx) && d'.tx.pending.None?
  {
    var e := Disconnect(stopped);
    HandleConn(d, e);
    ConnectedStep(d, e);
    PendingStep(d, e);
    AcceptStep(d, e);
    PutStep(d, e);
  }

  /**
   A disconnect disconnects: after it there is no connection, no pending connect and
   nothing queued, the stream refuses, and nothing is accepted or put until some later
   connect succeeds.
   */
  lemma DisconnectEnds(events: seq<Event>, stopped: bool, more: seq<Event>)
    requires NeverInstalls(events + [Disconnect(stopped)], more)
    ensures var d := Loop(events + [Disconnect(stopped)]);
            && d.connection.None? && !d.pendingConnect && d.tx.faulted && !HasWork(d.tx) && d.tx.pending.None?
            && Quiet(Loop(events), d) && Quiet(d, Loop(events + [Disconnect(stopped)] + more))
  {
    LoopExtend(events, Disconnect(stopped));
    LoopConn(events);
    DisconnectStep(Loop(events), stopped);
    QuietWithoutConnect(events + [Disconnect(stopped)], more, |more|);
    assert more[..|more|] == more;
  }
}
