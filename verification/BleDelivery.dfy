/**
 What the transmit scheduler promises over whole runs.

 A run interleaves enqueues, prepares (a repeated prepare is a retry), confirms,
 faults and fresh connections. Beside the scheduler it records, per connection
 epoch and per lane, what was accepted, which fragments were confirmed and which
 ids were reported complete; a receiver consumes every confirmed fragment.
 */
module BleDelivery {
  import opened Prelude
  import opened BleFragments
  import opened BleScheduler

  datatype Lane = Lane(accepted: seq<Message>, written: seq<Fragment>, completed: seq<u16>)

  const EmptyLane: Lane := Lane([], [], [])

  datatype Epoch = Epoch(control: Lane, realtime: Lane, repair: Lane, retired: seq<Message>, receiver: Receiver)

  const EmptyEpoch: Epoch := Epoch(EmptyLane, EmptyLane, EmptyLane, [], FreshReceiver)

  datatype History = History(tx: Scheduler, epoch: Epoch, past: seq<Epoch>)

  const InitialHistory: History := History(InitialScheduler, EmptyEpoch, [])

  function LaneOf(e: Epoch, p: Priority): Lane {
    match p
    case Control => e.control
    case Realtime => e.realtime
    case Repair => e.repair
  }

  function WithLane(e: Epoch, p: Priority, lane: Lane): Epoch {
    match p
    case Control => e.(control := lane)
    case Realtime => e.(realtime := lane)
    case Repair => e.(repair := lane)
  }

  datatype Action =
    | DoEnqueue(priority: Priority, plan: Option<Message>)
    | DoPrepare
    | DoConfirm
    | DoFault
    | DoFresh

  function Step(h: History, a: Action): History {
    match a
    case DoEnqueue(p, plan) =>
      if h.tx.faulted || plan.None? then h
      else
        var lane := LaneOf(h.epoch, p);
        h.(tx := Enqueue(h.tx, p, plan.value),
           epoch := WithLane(h.epoch, p, lane.(accepted := lane.accepted + [plan.value])))
    case DoPrepare => h.(tx := PrepareNext(h.tx).0)
    case DoConfirm =>
      if h.tx.pending.None? then h
      else
        var prepared := h.tx.pending.value;
        var q := QueueOf(h.tx, prepared.priority);
        var (tx, report) := ConfirmPending(h.tx);
        var lane := LaneOf(h.epoch, prepared.priority);
        var lane' := Lane(lane.accepted, lane.written + [prepared.fragment],
                          if report.Some? then lane.completed + [report.value] else lane.completed);
        History(tx,
                WithLane(h.epoch, prepared.priority, lane')
                .(receiver := Push(h.epoch.receiver, prepared.fragment),
                  retired := if report.Some? && q != [] then h.epoch.retired + [q[0].message] else h.epoch.retired),
                h.past)
    case DoFault => History(Fault(h.tx), EmptyEpoch, h.past + [h.epoch])
    case DoFresh => History(FreshConnection(h.tx), EmptyEpoch, h.past + [h.epoch])
  }

  function Run(h: History, actions: seq<Action>): History {
    if actions == [] then h else Step(Run(h, actions[..|actions| - 1]), actions[|actions| - 1])
  }

  // ---- The lane invariant -------------------------------------------------

  function PendingIn(s: Scheduler, p: Priority): Option<Prepared> {
    if s.pending.Some? && s.pending.value.priority == p then s.pending else None
  }

  /** How many fragments of the queue's head have been confirmed. */
  function Confirmed(q: seq<Queued>, pending: Option<Prepared>): int {
    if q == [] then 0 else if pending.Some? then q[0].next - 1 else q[0].next
  }

  /**
   The queue is the accepted sequence without its completed prefix; only its head
   is partly sent; the pending fragment is the head's last encoded one; and the
   confirmed fragments are those of the completed messages followed by the head's.
   */
  ghost predicate LaneInv(lane: Lane, q: seq<Queued>, pending: Option<Prepared>) {
    var d := |lane.completed|;
    && d + |q| == |lane.accepted|
    && lane.completed == Ids(lane.accepted[..d])
    && QueueMatches(q, lane.accepted[d..])
    && (pending.Some? ==>
          && q != [] && q[0].next > 0
          && pending.value.id == q[0].message.id
          && pending.value.completes == (q[0].next == |q[0].message.chunks|)
          && pending.value.fragment == FragmentAt(q[0].message, q[0].next - 1))
    && (q != [] && pending.None? && q[0].next > 0 ==> q[0].next < |q[0].message.chunks|)
    && lane.written == Train(lane.accepted[..d])
                       + (if q == [] then [] else Fragments(q[0].message, Confirmed(q, pending)))
  }

  /** The queued messages are these, and only the first has been started. */
  ghost predicate QueueMatches(q: seq<Queued>, messages: seq<Message>) {
    && |q| == |messages|
    && (forall i :: 0 <= i < |q| ==> q[i].message == messages[i])
    && (q != [] ==> q[0].next <= |q[0].message.chunks|)
    && (forall i :: 0 < i < |q| ==> q[i].next == 0)
  }

  ghost predicate LaneOk(h: History, p: Priority) {
    LaneInv(LaneOf(h.epoch, p), QueueOf(h.tx, p), PendingIn(h.tx, p))
  }

  ghost predicate HistoryInv(h: History) {
    && (forall p :: LaneOk(h, p))
    && (h.tx.faulted ==> Pick(h.tx).None? && h.tx.pending.None?)
    && (forall i :: 0 <= i < |h.past| ==> EpochDelivered(h.past[i]))
  }

  lemma LaneEnqueue(lane: Lane, q: seq<Queued>, pending: Option<Prepared>, m: Message)
    requires LaneInv(lane, q, pending)
    ensures LaneInv(lane.(accepted := lane.accepted + [m]), q + [Queued(m, 0)], pending)
  {
    var d := |lane.completed|;
    var lane' := lane.(accepted := lane.accepted + [m]);
    assert lane'.accepted[..d] == lane.accepted[..d];
    assert lane'.accepted[d..] == lane.accepted[d..] + [m];
    if q == [] {
      assert Fragments(m, 0) == [];
    }
  }

  lemma LanePrepare(lane: Lane, q: seq<Queued>, p: Priority)
    requires LaneInv(lane, q, None) && q != [] && q[0].next < |q[0].message.chunks|
    ensures LaneInv(lane, q[0 := q[0].(next := q[0].next + 1)],
                    Some(Prepared(p, q[0].message.id, q[0].next + 1 == |q[0].message.chunks|,
                                  FragmentAt(q[0].message, q[0].next))))
  {
  }

  lemma LaneConfirmMiddle(lane: Lane, q: seq<Queued>, pending: Option<Prepared>)
    requires LaneInv(lane, q, pending) && pending.Some? && !pending.value.completes
    ensures LaneInv(lane.(written := lane.written + [pending.value.fragment]), q, None)
  {
    var m, k := q[0].message, q[0].next;
    AppendFragment(Train(lane.accepted[..|lane.completed|]), m, k);
  }

  lemma AppendFragment(train: seq<Fragment>, m: Message, k: nat)
    requires 0 < k <= |m.chunks|
    ensures train + Fragments(m, k - 1) + [FragmentAt(m, k - 1)] == train + Fragments(m, k)
  {
    assert Fragments(m, k) == Fragments(m, k - 1) + [FragmentAt(m, k - 1)];
  }

  /** Confirming a message's last fragment extends the completed train by the whole message. */
  lemma ConfirmLastWritten(lane: Lane, m: Message)
    requires |lane.completed| < |lane.accepted| && m == lane.accepted[|lane.completed|] && m.chunks != []
    requires lane.written == Train(lane.accepted[..|lane.completed|]) + Fragments(m, |m.chunks| - 1)
    ensures lane.written + [FragmentAt(m, |m.chunks| - 1)] == Train(lane.accepted[..|lane.completed| + 1])
  {
    TrainStep(lane.accepted, |lane.completed|);
    assert Fragments(m, |m.chunks|) == Fragments(m, |m.chunks| - 1) + [FragmentAt(m, |m.chunks| - 1)];
  }

  lemma LaneConfirmLast(lane: Lane, q: seq<Queued>, pending: Option<Prepared>)
    requires LaneInv(lane, q, pending) && pending.Some? && pending.value.completes
    ensures LaneInv(Lane(lane.accepted, lane.written + [pending.value.fragment], lane.completed + [pending.value.id]),
                    q[1..], None)
  {
    var m, d := q[0].message, |lane.completed|;
    ConfirmLastWritten(lane, m);
    var lane' := Lane(lane.accepted, lane.written + [pending.value.fragment], lane.completed + [pending.value.id]);
    assert lane'.completed == Ids(lane.accepted[..d + 1]) by {
      assert Ids(lane.accepted[..d + 1]) == Ids(lane.accepted[..d]) + [m.id];
    }
    assert lane'.written == Train(lane.accepted[..d + 1]);
    assert lane.accepted[d + 1..] == lane.accepted[d..][1..];
    assert QueueMatches(q[1..], lane.accepted[d + 1..]);
    if |q| > 1 {
      assert Fragments(q[1].message, 0) == [];
    }
  }

  // ---- Delivery, stated without the scheduler -----------------------------

  /**
   Exactly the first |completed| accepted messages are fully written, they are
   reported in acceptance order, and what is written beyond them is a proper
   prefix of the next message (or that message has no fragments at all).
   */
  ghost predicate LaneDelivered(lane: Lane) {
    var d := |lane.completed|;
    && d <= |lane.accepted|
    && lane.completed == Ids(lane.accepted[..d])
    && Train(lane.accepted[..d]) <= lane.written <= Train(lane.accepted)
    && (d == |lane.accepted| ==> lane.written == Train(lane.accepted))
    && (d < |lane.accepted| ==>
          && |lane.written| <= |Train(lane.accepted[..d + 1])|
          && (lane.accepted[d].chunks != [] ==> |lane.written| < |Train(lane.accepted[..d + 1])|))
  }

  ghost predicate EpochDelivered(e: Epoch) {
    LaneDelivered(e.control) && LaneDelivered(e.realtime) && LaneDelivered(e.repair)
  }

  lemma LaneInvDelivers(lane: Lane, q: seq<Queued>, pending: Option<Prepared>)
    requires LaneInv(lane, q, pending)
    ensures LaneDelivered(lane)
  {
    var d := |lane.completed|;
    assert lane.accepted[..|lane.accepted|] == lane.accepted;
    if q != [] {
      var m := q[0].message;
      TrainStep(lane.accepted, d);
      PartOfTrain(Train(lane.accepted[..d]), m, Confirmed(q, pending));
      TrainPrefix(lane.accepted, d + 1, |lane.accepted|);
    }
  }

  lemma PartOfTrain(train: seq<Fragment>, m: Message, k: nat)
    requires k <= |m.chunks|
    ensures train <= train + Fragments(m, k) <= train + Fragments(m, |m.chunks|)
    ensures |train + Fragments(m, k)| == |train| + k
  {
    assert Fragments(m, k) <= Fragments(m, |m.chunks|);
  }

  lemma HistoryDelivers(h: History)
    requires HistoryInv(h)
    ensures EpochDelivered(h.epoch)
  {
    forall p ensures LaneDelivered(LaneOf(h.epoch, p)) {
      assert LaneOk(h, p);
      LaneInvDelivers(LaneOf(h.epoch, p), QueueOf(h.tx, p), PendingIn(h.tx, p));
    }
    assert LaneDelivered(LaneOf(h.epoch, Control));
    assert LaneDelivered(LaneOf(h.epoch, Realtime));
    assert LaneDelivered(LaneOf(h.epoch, Repair));
  }

  lemma EnqueueKeepsHistory(h: History, p: Priority, m: Message)
    requires HistoryInv(h) && !h.tx.faulted
    ensures HistoryInv(Step(h, DoEnqueue(p, Some(m))))
  {
    assert LaneOk(h, p);
    LaneEnqueue(LaneOf(h.epoch, p), QueueOf(h.tx, p), PendingIn(h.tx, p), m);
    var h' := Step(h, DoEnqueue(p, Some(m)));
    forall r ensures LaneOk(h', r) {
      assert LaneOk(h, r);
      EnqueueFrame(h, p, m, r);
    }
  }

  /** Enqueueing touches only its own lane and queue. */
  lemma EnqueueFrame(h: History, p: Priority, m: Message, r: Priority)
    requires !h.tx.faulted
    ensures var h' := Step(h, DoEnqueue(p, Some(m)));
            && PendingIn(h'.tx, r) == PendingIn(h.tx, r)
            && (r != p ==> LaneOf(h'.epoch, r) == LaneOf(h.epoch, r) && QueueOf(h'.tx, r) == QueueOf(h.tx, r))
  {
  }

  /** Preparing a fragment touches only the queue it was picked from. */
  lemma PrepareFrame(s: Scheduler, p: Priority, r: Priority)
    requires s.pending.None? && Pick(s) == Some(p)
    ensures var s' := PrepareNext(s).0;
            var q := QueueOf(s, p);
            q != [] && s'.faulted == s.faulted &&
            if r != p || q[0].next >= |q[0].message.chunks| then
              QueueOf(s', r) == QueueOf(s, r) && PendingIn(s', r).None?
            else
              && QueueOf(s', r) == q[0 := q[0].(next := q[0].next + 1)]
              && PendingIn(s', r) == Some(Prepared(p, q[0].message.id, q[0].next + 1 == |q[0].message.chunks|,
                                                   FragmentAt(q[0].message, q[0].next)))
  {
  }

  lemma PrepareKeepsHistory(h: History)
    requires HistoryInv(h)
    ensures HistoryInv(Step(h, DoPrepare))
  {
    if h.tx.pending.None? && Pick(h.tx).Some? {
      var p := Pick(h.tx).value;
      var q := QueueOf(h.tx, p);
      var h' := Step(h, DoPrepare);
      PrepareFrame(h.tx, p, p);
      forall r ensures LaneOk(h', r) {
        PrepareFrame(h.tx, p, r);
        assert LaneOk(h, r);
        if r == p && q[0].next < |q[0].message.chunks| {
          LanePrepare(LaneOf(h.epoch, p), q, p);
        }
      }
    }
  }

  /** Confirming touches only the lane and queue of the pending fragment. */
  lemma ConfirmFrame(h: History, r: Priority)
    requires h.tx.pending.Some?
    ensures var h' := Step(h, DoConfirm);
            && PendingIn(h'.tx, r) == None
            && (r != h.tx.pending.value.priority ==>
                  && LaneOf(h'.epoch, r) == LaneOf(h.epoch, r) && QueueOf(h'.tx, r) == QueueOf(h.tx, r)
                  && PendingIn(h.tx, r) == None)
  {
  }

  lemma ConfirmKeepsHistory(h: History)
    requires HistoryInv(h) && h.tx.pending.Some?
    ensures HistoryInv(Step(h, DoConfirm))
  {
    var p := h.tx.pending.value.priority;
    assert LaneOk(h, p);
    if h.tx.pending.value.completes {
      LaneConfirmLast(LaneOf(h.epoch, p), QueueOf(h.tx, p), h.tx.pending);
    } else {
      LaneConfirmMiddle(LaneOf(h.epoch, p), QueueOf(h.tx, p), h.tx.pending);
    }
    var h' := Step(h, DoConfirm);
    forall r ensures LaneOk(h', r) {
      assert LaneOk(h, r);
      ConfirmFrame(h, r);
    }
  }

  lemma ClearKeepsHistory(h: History, a: Action)
    requires HistoryInv(h) && (a.DoFault? || a.DoFresh?)
    ensures HistoryInv(Step(h, a))
  {
    HistoryDelivers(h);
    forall p ensures LaneOk(Step(h, a), p) {
    }
  }

  lemma StepKeepsHistory(h: History, a: Action)
    requires HistoryInv(h)
    ensures HistoryInv(Step(h, a))
  {
    match a
    case DoEnqueue(p, plan) =>
      if !h.tx.faulted && plan.Some? {
        EnqueueKeepsHistory(h, p, plan.value);
      }
    case DoPrepare => PrepareKeepsHistory(h);
    case DoConfirm =>
      if h.tx.pending.Some? {
        ConfirmKeepsHistory(h);
      }
    case DoFault => ClearKeepsHistory(h, a);
    case DoFresh => ClearKeepsHistory(h, a);
  }

  lemma {:induction false} RunKeepsHistory(actions: seq<Action>)
    ensures HistoryInv(Run(InitialHistory, actions))
  {
    if actions == [] {
      forall p ensures LaneOk(InitialHistory, p) {
      }
    } else {
      RunKeepsHistory(actions[..|actions| - 1]);
      StepKeepsHistory(Run(InitialHistory, actions[..|actions| - 1]), actions[|actions| - 1]);
    }
  }

  /**
   In every run, in every connection epoch and in every lane: confirmed fragments
   are a prefix of the accepted messages' fragment train; an id is reported once,
   in acceptance order, exactly when its last fragment has been confirmed.
   */
  lemma EveryRunDelivers(actions: seq<Action>)
    ensures var h := Run(InitialHistory, actions);
            EpochDelivered(h.epoch) && forall i :: 0 <= i < |h.past| ==> EpochDelivered(h.past[i])
  {
    RunKeepsHistory(actions);
    HistoryDelivers(Run(InitialHistory, actions));
  }

  /** The bytes of the j-th accepted message that a lane has confirmed so far. */
  ghost function BytesWritten(lane: Lane, j: nat): seq<byte>
    requires j < |lane.accepted| && |Train(lane.accepted[..j])| <= |lane.written|
  {
    var from := |Train(lane.accepted[..j])|;
    var upto := from + |lane.accepted[j].chunks|;
    Flatten(Payloads(lane.written[from..if upto <= |lane.written| then upto else |lane.written|]))
  }

  /**
   As soon as a fragment of a message is on the air, every earlier message of its
   lane is complete (so a repair FIN never overtakes its repair prefix), the bytes
   sent are a prefix of its wire, and they are the whole wire once it is reported.
   */
  lemma MessageBytes(lane: Lane, j: nat)
    requires LaneDelivered(lane) && j < |lane.accepted| && |Train(lane.accepted[..j])| < |lane.written|
    ensures Train(lane.accepted[..j]) <= lane.written
    ensures j <= |lane.completed|
    ensures BytesWritten(lane, j) <= Wire(lane.accepted[j])
    ensures j < |lane.completed| ==> BytesWritten(lane, j) == Wire(lane.accepted[j])
  {
    MessageBounds(lane, j);
    var m := lane.accepted[j];
    var from := |Train(lane.accepted[..j])|;
    var k := if from + |m.chunks| <= |lane.written| then |m.chunks| else |lane.written| - from;
    WrittenSlice(lane, j, k);
    PayloadsJoin(m, k);
  }

  /** Where a message that is on the air lies between its neighbours. */
  lemma MessageBounds(lane: Lane, j: nat)
    requires LaneDelivered(lane) && j < |lane.accepted| && |Train(lane.accepted[..j])| < |lane.written|
    ensures Train(lane.accepted[..j]) <= lane.written
    ensures j <= |lane.completed|
    ensures j < |lane.completed| ==> |Train(lane.accepted[..j])| + |lane.accepted[j].chunks| <= |lane.written|
  {
    var d := |lane.completed|;
    assert lane.accepted[..|lane.accepted|] == lane.accepted;
    TrainPrefix(lane.accepted, j, |lane.accepted|);
    if d < j {
      TrainPrefix(lane.accepted, d + 1, j);
    } else if j < d {
      TrainStep(lane.accepted, j);
      TrainPrefix(lane.accepted, j + 1, d);
    }
  }

  lemma WrittenSlice(lane: Lane, j: nat, k: nat)
    requires j < |lane.accepted| && k <= |lane.accepted[j].chunks|
    requires lane.written <= Train(lane.accepted) && |Train(lane.accepted[..j])| + k <= |lane.written|
    ensures var from := |Train(lane.accepted[..j])|;
            lane.written[from..from + k] == Fragments(lane.accepted[j], k)
  {
    var m, from := lane.accepted[j], |Train(lane.accepted[..j])|;
    TrainStep(lane.accepted, j);
    TrainPrefix(lane.accepted, j + 1, |lane.accepted|);
    assert lane.accepted[..|lane.accepted|] == lane.accepted;
    assert Train(lane.accepted)[..from + |m.chunks|] == Train(lane.accepted[..j]) + Fragments(m, |m.chunks|);
    assert lane.written[from..from + k] == Fragments(m, |m.chunks|)[..k];
  }
}
