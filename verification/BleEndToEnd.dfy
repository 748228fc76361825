/**
 The end-to-end guarantee of the transmit scheduler: fragments of the three lanes are
 interleaved freely, yet a receiver with a three-partial budget rebuilds exactly the
 completed messages.
 */
module BleEndToEnd {
  import opened Prelude
  import opened BleFragments
  import opened BleScheduler
  import opened BleDelivery

  // ---- Reassembly ---------------------------------------------------------

  /** A lane as the receiver can see it: its queued messages and the head's confirmed fragments. */
  datatype View = View(queue: seq<Message>, sent: int)

  function Messages(q: seq<Queued>): seq<Message> {
    seq(|q|, i requires 0 <= i < |q| => q[i].message)
  }

  function ViewOf(tx: Scheduler, p: Priority): View {
    View(Messages(QueueOf(tx, p)), Confirmed(QueueOf(tx, p), PendingIn(tx, p)))
  }

  function IdSet(v: View): set<u16> {
    set i | 0 <= i < |v.queue| :: v.queue[i].id
  }

  function Flying(v: View): set<u16> {
    if v.queue != [] && v.sent > 0 then {v.queue[0].id} else {}
  }

  /** Ids of the messages that are partly on the air: at most one per lane. */
  function InFlight(tx: Scheduler): set<u16> {
    Flying(ViewOf(tx, Control)) + Flying(ViewOf(tx, Realtime)) + Flying(ViewOf(tx, Repair))
  }

  function Deliveries(retired: seq<Message>): seq<(u16, seq<byte>)> {
    seq(|retired|, i requires 0 <= i < |retired| => (retired[i].id, Wire(retired[i])))
  }

  ghost predicate Sendable(m: Message) {
    WellPlanned(m) && m.chunks != []
  }

  ghost predicate ViewOk(v: View) {
    && (forall i :: 0 <= i < |v.queue| ==> Sendable(v.queue[i]))
    && (forall i, j :: 0 <= i < j < |v.queue| ==> v.queue[i].id != v.queue[j].id)
    && 0 <= v.sent
    && (if v.queue == [] then v.sent == 0 else v.sent < |v.queue[0].chunks|)
  }

  /** The receiver holds exactly the confirmed bytes of the lane's head. */
  ghost predicate Holds(r: Receiver, v: View)
    requires ViewOk(v)
  {
    v.sent > 0 ==> v.queue[0].id in r.partial && r.partial[v.queue[0].id] == PartialAfter(v.queue[0], v.sent)
  }

  ghost predicate Joined(r: Receiver, c: View, t: View, x: View) {
    && !r.refused
    && ViewOk(c) && ViewOk(t) && ViewOk(x)
    && IdSet(c) !! IdSet(t) && IdSet(c) !! IdSet(x) && IdSet(t) !! IdSet(x)
    && r.partial.Keys == Flying(c) + Flying(t) + Flying(x)
    && Holds(r, c) && Holds(r, t) && Holds(r, x)
  }

  ghost predicate ReceiverInv(h: History) {
    && Joined(h.epoch.receiver, ViewOf(h.tx, Control), ViewOf(h.tx, Realtime), ViewOf(h.tx, Repair))
    && h.epoch.receiver.delivered == Deliveries(h.epoch.retired)
  }

  ghost predicate Live(tx: Scheduler, id: u16) {
    id in IdSet(ViewOf(tx, Control)) + IdSet(ViewOf(tx, Realtime)) + IdSet(ViewOf(tx, Repair))
  }

  /** The sender's side of the contract: a fragmentable message whose id is not still queued. */
  ghost predicate Admissible(h: History, a: Action) {
    a.DoEnqueue? && a.plan.Some? ==> Sendable(a.plan.value) && !Live(h.tx, a.plan.value.id)
  }

  ghost predicate AdmissibleRun(h: History, actions: seq<Action>) {
    forall i :: 0 <= i < |actions| ==> Admissible(Run(h, actions[..i]), actions[i])
  }

  function Append(v: View, m: Message): View {
    v.(queue := v.queue + [m])
  }

  function Advance(v: View): View
    requires v.queue != []
  {
    if v.sent + 1 == |v.queue[0].chunks| then View(v.queue[1..], 0) else v.(sent := v.sent + 1)
  }

  lemma FlyingWithinIds(v: View)
    ensures Flying(v) <= IdSet(v) && |Flying(v)| <= 1
  {
  }

  lemma AppendView(v: View, m: Message)
    requires ViewOk(v) && Sendable(m) && m.id !in IdSet(v)
    ensures ViewOk(Append(v, m)) && IdSet(Append(v, m)) == IdSet(v) + {m.id}
    ensures Flying(Append(v, m)) == Flying(v)
    ensures forall r :: Holds(r, v) ==> Holds(r, Append(v, m))
  {
    var v' := Append(v, m);
    assert forall i :: 0 <= i < |v.queue| ==> v'.queue[i] == v.queue[i];
    assert v'.queue[|v.queue|] == m;
  }

  lemma AdvanceView(v: View)
    requires ViewOk(v) && v.queue != []
    ensures ViewOk(Advance(v)) && IdSet(Advance(v)) <= IdSet(v)
    ensures v.sent + 1 == |v.queue[0].chunks| ==> v.queue[0].id !in IdSet(Advance(v)) && Flying(Advance(v)) == {}
    ensures v.sent + 1 < |v.queue[0].chunks| ==> Flying(Advance(v)) == {v.queue[0].id}
  {
    if v.sent + 1 == |v.queue[0].chunks| {
      var v' := Advance(v);
      assert forall i :: 0 <= i < |v'.queue| ==> v'.queue[i] == v.queue[i + 1];
    }
  }

  /** The receiver's reaction to the next fragment of one lane, `rest` being what the other lanes have in flight. */
  lemma PushAdvances(r: Receiver, v: View, rest: set<u16>)
    requires !r.refused && ViewOk(v) && v.queue != [] && Holds(r, v)
    requires r.partial.Keys == Flying(v) + rest && rest !! IdSet(v) && |rest| < PARTIAL_BUDGET
    ensures var m := v.queue[0];
            var r' := Push(r, FragmentAt(m, v.sent));
            && AdvanceOk(v)
            && !r'.refused
            && Holds(r', Advance(v))
            && r'.partial.Keys == Flying(Advance(v)) + rest
            && (forall id :: id in rest ==> r'.partial[id] == r.partial[id])
            && r'.delivered == if v.sent + 1 == |m.chunks| then r.delivered + [(m.id, Wire(m))] else r.delivered
  {
    var m := v.queue[0];
    AdvanceView(v);
    assert m.id in IdSet(v);
    assert |r.partial| == |Flying(v) + rest|;
    if v.sent == 0 {
      assert Flying(v) + rest == rest;
    } else {
      assert |{m.id} + rest| == 1 + |rest|;
    }
    PushNext(r, m, v.sent);
  }

  ghost predicate AdvanceOk(v: View) {
    v.queue != [] ==> ViewOk(Advance(v))
  }

  lemma RestBound(a: View, b: View)
    ensures |Flying(a) + Flying(b)| < PARTIAL_BUDGET
  {
    assert |Flying(a) + Flying(b)| <= |Flying(a)| + |Flying(b)|;
  }

  /** `Joined` does not depend on which lane is named first. */
  lemma JoinedAdvance(r: Receiver, v: View, a: View, b: View)
    requires Joined(r, v, a, b) && v.queue != []
    ensures var r' := Push(r, FragmentAt(v.queue[0], v.sent));
            && Joined(r', Advance(v), a, b)
            && r'.delivered == (if v.sent + 1 == |v.queue[0].chunks|
                                then r.delivered + [(v.queue[0].id, Wire(v.queue[0]))] else r.delivered)
  {
    var rest := Flying(a) + Flying(b);
    RestIsApart(r, v, a, b);
    PushAdvances(r, v, rest);
    AdvanceView(v);
    JoinedAgain(r, Push(r, FragmentAt(v.queue[0], v.sent)), v, Advance(v), a, b);
  }

  lemma RestIsApart(r: Receiver, v: View, a: View, b: View)
    requires Joined(r, v, a, b)
    ensures var rest := Flying(a) + Flying(b);
            r.partial.Keys == Flying(v) + rest && rest !! IdSet(v) && |rest| < PARTIAL_BUDGET
  {
    FlyingWithinIds(a);
    FlyingWithinIds(b);
    RestBound(a, b);
  }

  /** What the receiver must show after one lane moved from `v` to `w` for the three to be joined again. */
  lemma JoinedAgain(r: Receiver, r': Receiver, v: View, w: View, a: View, b: View)
    requires Joined(r, v, a, b)
    requires ViewOk(w) && IdSet(w) <= IdSet(v) && !r'.refused && Holds(r', w)
    requires r'.partial.Keys == Flying(w) + (Flying(a) + Flying(b))
    requires forall id :: id in Flying(a) + Flying(b) ==> r'.partial[id] == r.partial[id]
    ensures Joined(r', w, a, b)
  {
    KeptAlongside(r, r', a, Flying(a) + Flying(b));
    KeptAlongside(r, r', b, Flying(a) + Flying(b));
  }

  /** A lane the fragment does not belong to keeps what the receiver holds of it. */
  lemma KeptAlongside(r: Receiver, r': Receiver, a: View, rest: set<u16>)
    requires ViewOk(a) && Holds(r, a) && Flying(a) <= rest && rest <= r.partial.Keys
    requires forall id :: id in rest ==> id in r'.partial && r'.partial[id] == r.partial[id]
    ensures Holds(r', a)
  {
    if a.sent > 0 {
      assert a.queue[0].id in Flying(a);
    }
  }

  lemma JoinedAppend(r: Receiver, v: View, a: View, b: View, m: Message)
    requires Joined(r, v, a, b) && Sendable(m) && m.id !in IdSet(v) + IdSet(a) + IdSet(b)
    ensures Joined(r, Append(v, m), a, b)
  {
    AppendView(v, m);
  }

  lemma JoinedSwap(r: Receiver, a: View, b: View, c: View)
    requires Joined(r, a, b, c)
    ensures Joined(r, b, a, c) && Joined(r, c, a, b)
  {
    assert Flying(a) + Flying(b) + Flying(c) == Flying(b) + Flying(a) + Flying(c) == Flying(c) + Flying(a) + Flying(b);
  }

  // ---- How the scheduler's steps change the views -------------------------

  lemma EnqueueViews(tx: Scheduler, p: Priority, m: Message, r: Priority)
    requires LaneInvLite(tx, r)
    ensures ViewOf(Enqueue(tx, p, m), r) == if r == p then Append(ViewOf(tx, r), m) else ViewOf(tx, r)
  {
    if r == p {
      assert Messages(QueueOf(tx, p) + [Queued(m, 0)]) == Messages(QueueOf(tx, p)) + [m];
    }
  }

  /** The only queue fact a view needs: nothing is pending on an empty queue. */
  ghost predicate LaneInvLite(tx: Scheduler, p: Priority) {
    PendingIn(tx, p).Some? ==> QueueOf(tx, p) != []
  }

  lemma PrepareViews(tx: Scheduler, r: Priority)
    ensures ViewOf(PrepareNext(tx).0, r) == ViewOf(tx, r)
  {
    if tx.pending.None? && Pick(tx).Some? {
      PrepareFrame(tx, Pick(tx).value, r);
      assert Messages(QueueOf(PrepareNext(tx).0, r)) == Messages(QueueOf(tx, r));
    }
  }

  lemma PendingIsNext(h: History)
    requires h.tx.pending.Some? && LaneOk(h, h.tx.pending.value.priority)
    ensures var p := h.tx.pending.value.priority;
            var v := ViewOf(h.tx, p);
            && v.queue != [] && 0 <= v.sent < |v.queue[0].chunks|
            && v.queue[0] == QueueOf(h.tx, p)[0].message
            && h.tx.pending.value.fragment == FragmentAt(v.queue[0], v.sent)
            && h.tx.pending.value.completes == (v.sent + 1 == |v.queue[0].chunks|)
            && (|v.queue| > 1 ==> QueueOf(h.tx, p)[1].next == 0)
  {
  }

  lemma ConfirmViews(tx: Scheduler, r: Priority)
    requires tx.pending.Some? && QueueOf(tx, tx.pending.value.priority) != []
    requires var v := ViewOf(tx, tx.pending.value.priority);
             tx.pending.value.completes == (v.sent + 1 == |v.queue[0].chunks|)
    requires var q := QueueOf(tx, tx.pending.value.priority); |q| > 1 ==> q[1].next == 0
    ensures var p := tx.pending.value.priority;
            ViewOf(ConfirmPending(tx).0, r) == if r == p then Advance(ViewOf(tx, p)) else ViewOf(tx, r)
  {
    var p := tx.pending.value.priority;
    var q := QueueOf(tx, p);
    assert Messages(q[1..]) == Messages(q)[1..];
  }

  lemma EnqueueKeepsReceiver(h: History, p: Priority, m: Message)
    requires HistoryInv(h) && ReceiverInv(h) && !h.tx.faulted && Sendable(m) && !Live(h.tx, m.id)
    ensures ReceiverInv(Step(h, DoEnqueue(p, Some(m))))
  {
    var r := h.epoch.receiver;
    var c, t, x := ViewOf(h.tx, Control), ViewOf(h.tx, Realtime), ViewOf(h.tx, Repair);
    assert LaneOk(h, Control) && LaneOk(h, Realtime) && LaneOk(h, Repair);
    EnqueueViews(h.tx, p, m, Control);
    EnqueueViews(h.tx, p, m, Realtime);
    EnqueueViews(h.tx, p, m, Repair);
    JoinedEnqueue(r, c, t, x, p, m);
    EnqueueLeavesReceiver(h, p, m);
  }

  lemma EnqueueLeavesReceiver(h: History, p: Priority, m: Message)
    requires !h.tx.faulted
    ensures var h' := Step(h, DoEnqueue(p, Some(m)));
            h'.tx == Enqueue(h.tx, p, m) && h'.epoch.receiver == h.epoch.receiver && h'.epoch.retired == h.epoch.retired
  {
  }

  /** Appending to any one of the three lanes keeps them joined. */
  lemma JoinedEnqueue(r: Receiver, c: View, t: View, x: View, p: Priority, m: Message)
    requires Joined(r, c, t, x) && Sendable(m) && m.id !in IdSet(c) + IdSet(t) + IdSet(x)
    ensures Joined(r, if p == Control then Append(c, m) else c, if p == Realtime then Append(t, m) else t,
                   if p == Repair then Append(x, m) else x)
  {
    JoinedSwap(r, c, t, x);
    match p
    case Control => JoinedAppend(r, c, t, x, m);
    case Realtime =>
      JoinedAppend(r, t, c, x, m);
      JoinedSwap(r, Append(t, m), c, x);
    case Repair =>
      JoinedAppend(r, x, c, t, m);
      JoinedRotate(r, Append(x, m), c, t);
  }

  lemma JoinedRotate(r: Receiver, a: View, b: View, c: View)
    requires Joined(r, a, b, c)
    ensures Joined(r, b, c, a)
  {
    assert Flying(a) + Flying(b) + Flying(c) == Flying(b) + Flying(c) + Flying(a);
  }

  lemma PrepareKeepsReceiver(h: History)
    requires ReceiverInv(h)
    ensures ReceiverInv(Step(h, DoPrepare))
  {
    PrepareViews(h.tx, Control);
    PrepareViews(h.tx, Realtime);
    PrepareViews(h.tx, Repair);
  }

  /** Advancing any one of the three lanes keeps them joined. */
  lemma JoinedConfirm(r: Receiver, c: View, t: View, x: View, p: Priority)
    requires Joined(r, c, t, x)
    requires (match p case Control => c case Realtime => t case Repair => x).queue != []
    ensures var v := match p case Control => c case Realtime => t case Repair => x;
            var r' := Push(r, FragmentAt(v.queue[0], v.sent));
            && Joined(r', if p == Control then Advance(c) else c, if p == Realtime then Advance(t) else t,
                      if p == Repair then Advance(x) else x)
            && r'.delivered == (if v.sent + 1 == |v.queue[0].chunks|
                                then r.delivered + [(v.queue[0].id, Wire(v.queue[0]))] else r.delivered)
  {
    JoinedSwap(r, c, t, x);
    match p
    case Control => JoinedAdvance(r, c, t, x);
    case Realtime =>
      JoinedAdvance(r, t, c, x);
      JoinedSwap(Push(r, FragmentAt(t.queue[0], t.sent)), Advance(t), c, x);
    case Repair =>
      JoinedAdvance(r, x, c, t);
      JoinedRotate(Push(r, FragmentAt(x.queue[0], x.sent)), Advance(x), c, t);
  }

  lemma ConfirmKeepsReceiver(h: History)
    requires HistoryInv(h) && ReceiverInv(h) && h.tx.pending.Some?
    ensures ReceiverInv(Step(h, DoConfirm))
  {
    var p := h.tx.pending.value.priority;
    assert LaneOk(h, p);
    PendingIsNext(h);
    ConfirmViews(h.tx, Control);
    ConfirmViews(h.tx, Realtime);
    ConfirmViews(h.tx, Repair);
    JoinedConfirm(h.epoch.receiver, ViewOf(h.tx, Control), ViewOf(h.tx, Realtime), ViewOf(h.tx, Repair), p);
    ConfirmRetires(h);
  }

  lemma ConfirmRetires(h: History)
    requires h.tx.pending.Some? && QueueOf(h.tx, h.tx.pending.value.priority) != []
    ensures var m := QueueOf(h.tx, h.tx.pending.value.priority)[0].message;
            var h' := Step(h, DoConfirm);
            && h'.tx == ConfirmPending(h.tx).0
            && h'.epoch.receiver == Push(h.epoch.receiver, h.tx.pending.value.fragment)
            && Deliveries(h'.epoch.retired) ==
               if h.tx.pending.value.completes then Deliveries(h.epoch.retired) + [(m.id, Wire(m))]
               else Deliveries(h.epoch.retired)
  {
  }

  lemma EmptyReceiver(h: History)
    requires h.epoch == EmptyEpoch && Pick(h.tx).None? && h.tx.pending.None?
    ensures ReceiverInv(h)
  {
  }

  lemma StepKeepsReceiver(h: History, a: Action)
    requires HistoryInv(h) && ReceiverInv(h) && Admissible(h, a)
    ensures ReceiverInv(Step(h, a))
  {
    match a
    case DoEnqueue(p, plan) =>
      if !h.tx.faulted && plan.Some? {
        EnqueueKeepsReceiver(h, p, plan.value);
      }
    case DoPrepare => PrepareKeepsReceiver(h);
    case DoConfirm =>
      if h.tx.pending.Some? {
        ConfirmKeepsReceiver(h);
      }
    case DoFault => EmptyReceiver(Step(h, a));
    case DoFresh => EmptyReceiver(Step(h, a));
  }

  lemma {:induction false} RunKeepsReceiver(actions: seq<Action>)
    requires AdmissibleRun(InitialHistory, actions)
    ensures ReceiverInv(Run(InitialHistory, actions))
  {
    if actions == [] {
      EmptyReceiver(InitialHistory);
    } else {
      var before := actions[..|actions| - 1];
      var a := actions[|actions| - 1];
      forall i | 0 <= i < |before|
        ensures Admissible(Run(InitialHistory, before[..i]), before[i])
      {
        assert before[..i] == actions[..i];
      }
      RunKeepsReceiver(before);
      RunKeepsHistory(before);
      var h := Run(InitialHistory, before);
      assert actions[..|before|] == before;
      StepKeepsReceiver(h, a);
    }
  }

  lemma InFlightBound(tx: Scheduler)
    ensures |InFlight(tx)| <= PARTIAL_BUDGET
  {
    var a, b, c := Flying(ViewOf(tx, Control)), Flying(ViewOf(tx, Realtime)), Flying(ViewOf(tx, Repair));
    assert |a + b| <= |a| + |b|;
    assert |a + b + c| <= |a + b| + |c|;
  }

  /**
   In every run that never reuses a queued id, the interleaved fragment stream of
   the current connection is accepted fragment by fragment within the receiver's
   budget, and the receiver has delivered exactly the messages reported complete,
   byte for byte and in the order they were reported.
   */
  lemma ReceiverRebuildsCompletedMessages(actions: seq<Action>)
    requires AdmissibleRun(InitialHistory, actions)
    ensures var e := Run(InitialHistory, actions).epoch;
            && !e.receiver.refused
            && |e.receiver.partial| <= PARTIAL_BUDGET
            && e.receiver.delivered == Deliveries(e.retired)
  {
    RunKeepsReceiver(actions);
    InFlightBound(Run(InitialHistory, actions).tx);
    assert |Run(InitialHistory, actions).epoch.receiver.partial| == |InFlight(Run(InitialHistory, actions).tx)|;
  }

  /** Only queue heads are ever partly sent, whatever ids the run uses. */
  lemma OnlyHeadsInProgress(actions: seq<Action>, p: Priority, i: nat)
    requires i < |QueueOf(Run(InitialHistory, actions).tx, p)|
    ensures QueueOf(Run(InitialHistory, actions).tx, p)[i].next > 0 ==> i == 0
  {
    RunKeepsHistory(actions);
    var h := Run(InitialHistory, actions);
    assert LaneOk(h, p);
  }
}
