/**
 Service of the transmit scheduler: control messages go out before anything else, and
 between the two bulk lanes each with work gets at least every second slot that control
 leaves over.
 */
module BleFairness {
  import opened Prelude
  import opened BleFragments
  import opened BleScheduler
  import opened BleDelivery

  /** Traffic on an unbroken connection: everything except faults and connection changes. */
  ghost predicate Steady(a: Action) {
    match a
    case DoEnqueue(_, plan) => plan.Some? ==> plan.value.chunks != []
    case DoPrepare => true
    case DoConfirm => true
    case DoFault => false
    case DoFresh => false
  }

  ghost predicate Planned(q: seq<Queued>) {
    forall i :: 0 <= i < |q| ==> q[i].message.chunks != []
  }

  ghost predicate PlannedQueues(tx: Scheduler) {
    Planned(tx.control) && Planned(tx.realtime) && Planned(tx.repair)
  }

  ghost predicate SteadyState(h: History) {
    HistoryInv(h) && PlannedQueues(h.tx)
  }

  /** Whether the next confirmation retires a fragment of a lane, or of a bulk lane only. */
  predicate Retires(tx: Scheduler, a: Action, bulkOnly: bool) {
    a.DoConfirm? && tx.pending.Some? && (bulkOnly ==> tx.pending.value.priority != Control)
  }

  /** Fragments confirmed over a run, those of control left out if only the bulk lanes count. */
  function Confirms(h: History, actions: seq<Action>, bulkOnly: bool): nat {
    if actions == [] then 0
    else
      Confirms(h, actions[..|actions| - 1], bulkOnly) +
      if Retires(Run(h, actions[..|actions| - 1]).tx, actions[|actions| - 1], bulkOnly) then 1 else 0
  }

  function WrittenIn(h: History, l: Priority): nat {
    |LaneOf(h.epoch, l).written|
  }

  /** Fragments the lane has to confirm, from the start of its epoch, to finish its j-th message. */
  function Needed(h: History, l: Priority, j: nat): nat
    requires j < |LaneOf(h.epoch, l).accepted|
  {
    |Train(LaneOf(h.epoch, l).accepted[..j + 1])|
  }

  predicate Prefers(tx: Scheduler, l: Priority) {
    tx.preferRealtime == (l == Realtime)
  }

  /**
   An upper bound on the confirmed fragments until the lane has confirmed `rem` more of
   its own: all fragments for control, those of the bulk lanes for a bulk lane.
   */
  function Budget(tx: Scheduler, l: Priority, rem: int): int {
    if l == Control then
      (if tx.pending.Some? && tx.pending.value.priority != Control then 1 else 0) + rem
    else if tx.pending.Some? && tx.pending.value.priority == l then 2 * rem - 1
    else
      (if tx.pending.Some? && tx.pending.value.priority != Control then 1 else 0)
      + (if Prefers(tx, l) then 2 * rem - 1 else 2 * rem)
  }

  /** A lane that still owes fragments has a queue to take them from. */
  lemma OwingLaneIsQueued(h: History, l: Priority, j: nat)
    requires SteadyState(h) && j < |LaneOf(h.epoch, l).accepted| && WrittenIn(h, l) < Needed(h, l, j)
    ensures QueueOf(h.tx, l) != []
  {
    var lane := LaneOf(h.epoch, l);
    assert LaneOk(h, l);
    LaneInvDelivers(lane, QueueOf(h.tx, l), PendingIn(h.tx, l));
    assert lane.accepted[..|lane.accepted|] == lane.accepted;
    TrainPrefix(lane.accepted, j + 1, |lane.accepted|);
  }

  lemma EnqueueInTime(h: History, a: Action, l: Priority)
    requires PlannedQueues(h.tx) && Steady(a) && a.DoEnqueue?
    ensures var h' := Step(h, a);
            && PlannedQueues(h'.tx)
            && h'.tx.pending == h.tx.pending && h'.tx.preferRealtime == h.tx.preferRealtime
            && WrittenIn(h', l) == WrittenIn(h, l)
            && LaneOf(h.epoch, l).accepted <= LaneOf(h'.epoch, l).accepted
  {
  }

  lemma PrepareKeepsPlans(tx: Scheduler)
    requires PlannedQueues(tx)
    ensures PlannedQueues(PrepareNext(tx).0)
  {
  }

  /**
   What the next fragment is taken from: control while it has work; otherwise the preferred
   bulk lane while both have work, the preference passing to the other exactly then; and
   otherwise the one bulk lane that has.
   */
  lemma PrepareServes(tx: Scheduler)
    requires tx.pending.None? && (tx.control != [] || tx.realtime != [] || tx.repair != [])
    requires forall p :: HeadUnsent(QueueOf(tx, p))
    ensures var (tx', r) := PrepareNext(tx);
            && r.Ok? && r.value.Some? && tx'.pending == r.value
            && var served := r.value.value.priority;
            && QueueOf(tx, served) != []
            && r.value.value.fragment == FragmentAt(QueueOf(tx, served)[0].message, QueueOf(tx, served)[0].next)
            && (tx.control != [] ==> served == Control)
            && (tx.control == [] && tx.realtime != [] && tx.repair != [] ==> Prefers(tx, served))
            && (tx'.preferRealtime != tx.preferRealtime <==> tx.control == [] && tx.realtime != [] && tx.repair != [])
  {
    assert forall p :: QueueOf(tx, p) != [] ==> HeadUnsent(QueueOf(tx, p));
    assert tx.control != [] ==> QueueOf(tx, Control) != [];
    assert HeadUnsent(QueueOf(tx, Pick(tx).value));
  }

  lemma PrepareInTime(tx: Scheduler, l: Priority, rem: int)
    requires QueueOf(tx, l) != [] && rem > 0
    requires tx.pending.None? ==> forall p :: HeadUnsent(QueueOf(tx, p))
    ensures Budget(PrepareNext(tx).0, l, rem) <= Budget(tx, l, rem)
  {
    if tx.pending.None? {
      PrepareServes(tx);
    }
  }

  ghost predicate HeadUnsent(q: seq<Queued>) {
    q != [] ==> q[0].next < |q[0].message.chunks|
  }

  /** With nothing pending, every queue head still has a fragment to encode. */
  lemma HeadsUnsent(h: History, p: Priority)
    requires SteadyState(h) && h.tx.pending.None?
    ensures HeadUnsent(QueueOf(h.tx, p))
  {
    assert LaneOk(h, p);
  }

  lemma ConfirmInTime(h: History, l: Priority, rem: int)
    requires PlannedQueues(h.tx) && h.tx.pending.Some?
    ensures var h' := Step(h, DoConfirm);
            var mine := h.tx.pending.value.priority == l;
            && PlannedQueues(h'.tx)
            && LaneOf(h'.epoch, l).accepted == LaneOf(h.epoch, l).accepted
            && WrittenIn(h', l) == WrittenIn(h, l) + (if mine then 1 else 0)
            && Budget(h'.tx, l, if mine then rem - 1 else rem)
               + (if Retires(h.tx, DoConfirm, l != Control) then 1 else 0)
               <= Budget(h.tx, l, rem)
  {
  }

  ghost predicate OnTrack(h: History, h': History, l: Priority, j: nat, spent: nat) {
    && SteadyState(h')
    && j < |LaneOf(h.epoch, l).accepted|
    && LaneOf(h.epoch, l).accepted <= LaneOf(h'.epoch, l).accepted
    && (WrittenIn(h', l) < Needed(h, l, j) ==>
          spent + Budget(h'.tx, l, Needed(h, l, j) - WrittenIn(h', l))
            <= Budget(h.tx, l, Needed(h, l, j) - WrittenIn(h, l)))
  }

  lemma PrepareOnTrack(h: History, h': History, l: Priority, j: nat, spent: nat)
    requires OnTrack(h, h', l, j, spent)
    ensures OnTrack(h, Step(h', DoPrepare), l, j, spent)
  {
    StepKeepsHistory(h', DoPrepare);
    var rem := Needed(h, l, j) - WrittenIn(h', l);
    if h'.tx.pending.None? {
      forall p ensures HeadUnsent(QueueOf(h'.tx, p)) {
        HeadsUnsent(h', p);
      }
    }
    PrepareKeepsPlans(h'.tx);
    if rem > 0 {
      assert LaneOf(h.epoch, l).accepted[..j + 1] == LaneOf(h'.epoch, l).accepted[..j + 1];
      OwingLaneIsQueued(h', l, j);
      PrepareInTime(h'.tx, l, rem);
    }
  }

  lemma ConfirmOnTrack(h: History, h': History, l: Priority, j: nat, spent: nat)
    requires OnTrack(h, h', l, j, spent) && h'.tx.pending.Some?
    ensures OnTrack(h, Step(h', DoConfirm), l, j, spent + if Retires(h'.tx, DoConfirm, l != Control) then 1 else 0)
  {
    StepKeepsHistory(h', DoConfirm);
    assert LaneOk(h', h'.tx.pending.value.priority);
    ConfirmInTime(h', l, Needed(h, l, j) - WrittenIn(h', l));
  }

  lemma StepOnTrack(h: History, h': History, l: Priority, j: nat, spent: nat, a: Action)
    requires OnTrack(h, h', l, j, spent) && Steady(a)
    ensures OnTrack(h, Step(h', a), l, j, spent + if Retires(h'.tx, a, l != Control) then 1 else 0)
  {
    match a
    case DoEnqueue(_, _) =>
      StepKeepsHistory(h', a);
      EnqueueInTime(h', a, l);
    case DoPrepare => PrepareOnTrack(h, h', l, j, spent);
    case DoConfirm =>
      if h'.tx.pending.Some? {
        ConfirmOnTrack(h, h', l, j, spent);
      }
  }

  lemma {:induction false} RunOnTrack(h: History, l: Priority, j: nat, actions: seq<Action>)
    requires SteadyState(h) && j < |LaneOf(h.epoch, l).accepted|
    requires forall i :: 0 <= i < |actions| ==> Steady(actions[i])
    ensures OnTrack(h, Run(h, actions), l, j, Confirms(h, actions, l != Control))
  {
    if actions != [] {
      var before := actions[..|actions| - 1];
      RunOnTrack(h, l, j, before);
      StepOnTrack(h, Run(h, before), l, j, Confirms(h, before, l != Control), actions[|actions| - 1]);
    }
  }

  lemma WrittenMeansReported(h: History, l: Priority, j: nat)
    requires SteadyState(h) && j < |LaneOf(h.epoch, l).accepted| && WrittenIn(h, l) >= Needed(h, l, j)
    ensures j < |LaneOf(h.epoch, l).completed|
  {
    var lane := LaneOf(h.epoch, l);
    assert LaneOk(h, l);
    LaneInvDelivers(lane, QueueOf(h.tx, l), PendingIn(h.tx, l));
    if |lane.completed| <= j {
      assert QueueOf(h.tx, l)[0].message == lane.accepted[|lane.completed|];
      TrainPrefix(lane.accepted, |lane.completed| + 1, j + 1);
    }
  }

  lemma CompletesInBudget(h: History, l: Priority, j: nat, actions: seq<Action>)
    requires SteadyState(h) && j < |LaneOf(h.epoch, l).accepted|
    requires forall i :: 0 <= i < |actions| ==> Steady(actions[i])
    requires Confirms(h, actions, l != Control) >= Budget(h.tx, l, Needed(h, l, j) - WrittenIn(h, l))
    ensures j < |LaneOf(Run(h, actions).epoch, l).completed|
  {
    RunOnTrack(h, l, j, actions);
    var h' := Run(h, actions);
    assert LaneOf(h'.epoch, l).accepted[..j + 1] == LaneOf(h.epoch, l).accepted[..j + 1];
    WrittenMeansReported(h', l, j);
  }

  /**
   Control goes first. The j-th control message accepted in this epoch is reported once r
   fragments have been confirmed, r being what it and its predecessors still owe, plus one
   if a bulk fragment was already pending. Nothing enqueued meanwhile, on whatever lane,
   can delay it.
   */
  lemma ControlMessageCompletesInTime(h: History, j: nat, actions: seq<Action>)
    requires SteadyState(h) && j < |h.epoch.control.accepted|
    requires forall i :: 0 <= i < |actions| ==> Steady(actions[i])
    requires Confirms(h, actions, false) >=
               Needed(h, Control, j) - WrittenIn(h, Control) +
               (if h.tx.pending.Some? && h.tx.pending.value.priority != Control then 1 else 0)
    ensures j < |Run(h, actions).epoch.control.completed|
  {
    CompletesInBudget(h, Control, j, actions);
  }

  /**
   The j-th message a bulk lane accepted in this epoch is reported once 2r bulk fragments
   have been confirmed, r being the fragments it and its predecessors still owe, plus one
   if the other bulk lane's fragment was already pending. Nothing enqueued meanwhile can
   delay it further, apart from control messages, whose fragments are not counted.
   */
  lemma BulkMessageCompletesInTime(h: History, l: Priority, j: nat, actions: seq<Action>)
    requires SteadyState(h) && l != Control && j < |LaneOf(h.epoch, l).accepted|
    requires forall i :: 0 <= i < |actions| ==> Steady(actions[i])
    requires Confirms(h, actions, true) >=
               2 * (Needed(h, l, j) - WrittenIn(h, l)) +
               (if h.tx.pending.Some? && h.tx.pending.value.priority !in {l, Control} then 1 else 0)
    ensures j < |LaneOf(Run(h, actions).epoch, l).completed|
  {
    CompletesInBudget(h, l, j, actions);
  }

  // ---- When the stream is open -------------------------------------------------

  /** The last fault or fresh connection of a run was a fresh connection. */
  predicate OpenedLast(actions: seq<Action>) {
    actions != []
    && match actions[|actions| - 1]
       case DoFresh => true
       case DoFault => false
       case _ => OpenedLast(actions[..|actions| - 1])
  }

  lemma {:induction false} OpenIff(actions: seq<Action>)
    ensures !Run(InitialHistory, actions).tx.faulted <==> OpenedLast(actions)
  {
    if actions != [] {
      OpenIff(actions[..|actions| - 1]);
      OpenStep(Run(InitialHistory, actions[..|actions| - 1]), actions[|actions| - 1]);
    }
  }

  lemma OpenStep(h: History, a: Action)
    ensures !Step(h, a).tx.faulted <==> a.DoFresh? || (!h.tx.faulted && !a.DoFault?)
  {
  }

  /**
   In every run a message is accepted exactly if it can be fragmented and the connection was
   opened anew since the last fault: it then waits last in its lane, behind what was there.
   */
  lemma AcceptedIff(actions: seq<Action>, p: Priority, plan: Option<Message>)
    ensures var h := Run(InitialHistory, actions);
            var h' := Run(InitialHistory, actions + [DoEnqueue(p, plan)]);
            if OpenedLast(actions) && plan.Some?
            then && LaneOf(h'.epoch, p).accepted == LaneOf(h.epoch, p).accepted + [plan.value]
                 && QueueOf(h'.tx, p) == QueueOf(h.tx, p) + [Queued(plan.value, 0)]
            else h' == h
  {
    OpenIff(actions);
    assert (actions + [DoEnqueue(p, plan)])[..|actions|] == actions;
  }

  /** Realtime first, nothing pending and nothing started. */
  ghost predicate JustOpened(tx: Scheduler) {
    tx.preferRealtime && !tx.faulted && tx.pending.None? && forall p :: Unstarted(QueueOf(tx, p))
  }

  ghost predicate Unstarted(q: seq<Queued>) {
    forall i :: 0 <= i < |q| ==> q[i].next == 0 && q[i].message.chunks != []
  }

  lemma OpensJust(h: History)
    ensures JustOpened(Step(h, DoFresh).tx)
  {
  }

  lemma EnqueueStaysOpened(h: History, a: Action)
    requires JustOpened(h.tx) && a.DoEnqueue? && Steady(a)
    ensures JustOpened(Step(h, a).tx)
  {
    forall p ensures Unstarted(QueueOf(Step(h, a).tx, p)) {
      assert Unstarted(QueueOf(h.tx, p));
    }
  }

  lemma {:induction false} StaysOpened(h: History, enqueues: seq<Action>)
    requires JustOpened(h.tx)
    requires forall i :: 0 <= i < |enqueues| ==> enqueues[i].DoEnqueue? && Steady(enqueues[i])
    ensures JustOpened(Run(h, enqueues).tx)
  {
    if enqueues != [] {
      StaysOpened(h, enqueues[..|enqueues| - 1]);
      EnqueueStaysOpened(Run(h, enqueues[..|enqueues| - 1]), enqueues[|enqueues| - 1]);
    }
  }

  /** On a fresh connection without control traffic, the first fragment is a realtime one if any waits. */
  lemma FirstBulkFragmentIsRealtime(h: History, enqueues: seq<Action>)
    requires forall i :: 0 <= i < |enqueues| ==> enqueues[i].DoEnqueue? && Steady(enqueues[i])
    requires var tx := Run(Step(h, DoFresh), enqueues).tx; tx.control == [] && tx.realtime != []
    ensures var r := PrepareNext(Run(Step(h, DoFresh), enqueues).tx).1;
            r.Ok? && r.value.Some? && r.value.value.priority == Realtime
  {
    OpensJust(h);
    StaysOpened(Step(h, DoFresh), enqueues);
    var tx := Run(Step(h, DoFresh), enqueues).tx;
    forall p ensures HeadUnsent(QueueOf(tx, p)) {
      assert Unstarted(QueueOf(tx, p));
    }
    PrepareServes(tx);
  }
}
