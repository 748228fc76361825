/**
 The BLE transmit scheduler: three priority queues of partly sent messages, one
 fragment fenced until it is confirmed, and a stream that refuses everything
 between a fault and the next fresh connection.

 `Scheduler` and its functions say what each operation does to the state;
 `DriverTxScheduler` is the object that does it in place.
 */
module BleScheduler {
  import opened Prelude
  import opened BleFragments

  datatype Priority = Control | Realtime | Repair

  datatype Queued = Queued(message: Message, next: nat)

  datatype Prepared = Prepared(priority: Priority, id: u16, completes: bool, fragment: Fragment)

  datatype TxError = StreamFaulted | NotFragmentable | CompletedCursorRetained

  datatype Scheduler = Scheduler(
    control: seq<Queued>, realtime: seq<Queued>, repair: seq<Queued>,
    pending: Option<Prepared>, preferRealtime: bool, faulted: bool)

  const InitialScheduler: Scheduler := Scheduler([], [], [], None, true, true)

  function QueueOf(s: Scheduler, p: Priority): seq<Queued> {
    match p
    case Control => s.control
    case Realtime => s.realtime
    case Repair => s.repair
  }

  function WithQueue(s: Scheduler, p: Priority, q: seq<Queued>): Scheduler {
    match p
    case Control => s.(control := q)
    case Realtime => s.(realtime := q)
    case Repair => s.(repair := q)
  }

  function Enqueue(s: Scheduler, p: Priority, m: Message): Scheduler {
    WithQueue(s, p, QueueOf(s, p) + [Queued(m, 0)])
  }

  /** Control first; otherwise the two bulk lanes, alternating while both have work. */
  function Pick(s: Scheduler): Option<Priority> {
    if s.control != [] then Some(Control)
    else if s.realtime != [] && s.repair != [] then Some(if s.preferRealtime then Realtime else Repair)
    else if s.realtime != [] then Some(Realtime)
    else if s.repair != [] then Some(Repair)
    else None
  }

  /** The preference flips only when both bulk lanes competed for the slot. */
  function Turn(s: Scheduler): Scheduler {
    if s.control == [] && s.realtime != [] && s.repair != [] then s.(preferRealtime := !s.preferRealtime) else s
  }

  function PrepareNext(s: Scheduler): (Scheduler, Result<Option<Prepared>, TxError>) {
    if s.pending.Some? then (s, Ok(s.pending))
    else
      match Pick(s)
      case None => (s, Ok(None))
      case Some(p) =>
        var s1 := Turn(s);
        var head := QueueOf(s1, p)[0];
        if head.next >= |head.message.chunks| then (s1, Err(CompletedCursorRetained))
        else
          var prepared := Prepared(p, head.message.id, head.next + 1 == |head.message.chunks|,
                                   FragmentAt(head.message, head.next));
          (WithQueue(s1, p, QueueOf(s1, p)[0 := head.(next := head.next + 1)]).(pending := Some(prepared)),
           Ok(Some(prepared)))
  }

  function ConfirmPending(s: Scheduler): (Scheduler, Option<u16>) {
    match s.pending
    case None => (s, None)
    case Some(prepared) =>
      var s1 := s.(pending := None);
      var q := QueueOf(s1, prepared.priority);
      if prepared.completes then
        (if q == [] then s1 else WithQueue(s1, prepared.priority, q[1..]), Some(prepared.id))
      else (s1, None)
  }

  function Clear(s: Scheduler): Scheduler {
    s.(control := [], realtime := [], repair := [], pending := None)
  }

  function Fault(s: Scheduler): Scheduler {
    Clear(s).(faulted := true)
  }

  function FreshConnection(s: Scheduler): Scheduler {
    Clear(s).(preferRealtime := true, faulted := false)
  }

  /** The scheduler as the driver thread holds it: three deques and three scalars, updated in place. */
  class DriverTxScheduler {
    var control: seq<Queued>
    var realtime: seq<Queued>
    var repair: seq<Queued>
    var pending: Option<Prepared>
    var preferRealtime: bool
    var faulted: bool

    function State(): Scheduler
      reads this
    {
      Scheduler(control, realtime, repair, pending, preferRealtime, faulted)
    }

    constructor ()
      ensures State() == InitialScheduler
    {
      control, realtime, repair := [], [], [];
      pending := None;
      preferRealtime := true;
      faulted := true;
    }

    method SetQueue(p: Priority, q: seq<Queued>)
      modifies this
      ensures State() == WithQueue(old(State()), p, q)
    {
      match p {
        case Control => control := q;
        case Realtime => realtime := q;
        case Repair => repair := q;
      }
    }

    /** `plan` is what the external fragmenter makes of the reserved message, or nothing if it refuses. */
    method EnqueueReserved(p: Priority, plan: Option<Message>) returns (r: Result<(), TxError>)
      modifies this
      ensures r.Ok? <==> !old(faulted) && plan.Some?
      ensures r.Err? ==> State() == old(State()) && r.error == if faulted then StreamFaulted else NotFragmentable
      ensures r.Ok? ==> State() == Enqueue(old(State()), p, plan.value)
    {
      if faulted {
        return Err(StreamFaulted);
      }
      if plan.None? {
        return Err(NotFragmentable);
      }
      SetQueue(p, QueueOf(State(), p) + [Queued(plan.value, 0)]);
      return Ok(());
    }

    method IsEmpty() returns (empty: bool)
      ensures empty <==> Pick(State()).None?
    {
      empty := control == [] && realtime == [] && repair == [];
    }

    method NextPriority() returns (p: Option<Priority>)
      modifies this`preferRealtime
      ensures p == Pick(old(State())) && State() == Turn(old(State()))
    {
      if control != [] {
        return Some(Control);
      }
      match (realtime == [], repair == []) {
        case (false, false) =>
          p := Some(if preferRealtime then Realtime else Repair);
          preferRealtime := !preferRealtime;
        case (false, true) => p := Some(Realtime);
        case (true, false) => p := Some(Repair);
        case (true, true) => p := None;
      }
    }

    method Prepare() returns (r: Result<Option<Prepared>, TxError>)
      modifies this
      ensures (State(), r) == PrepareNext(old(State()))
    {
      if pending.Some? {
        return Ok(pending);
      }
      var p := NextPriority();
      if p.None? {
        return Ok(None);
      }
      var q := QueueOf(State(), p.value);
      var head := q[0];
      if head.next >= |head.message.chunks| {
        return Err(CompletedCursorRetained);
      }
      var fragment := FragmentAt(head.message, head.next);
      head := head.(next := head.next + 1);
      SetQueue(p.value, q[0 := head]);
      pending := Some(Prepared(p.value, head.message.id, head.next == |head.message.chunks|, fragment));
      return Ok(pending);
    }

    method Confirm() returns (completed: Option<u16>)
      modifies this
      ensures (State(), completed) == ConfirmPending(old(State()))
    {
      if pending.None? {
        return None;
      }
      var prepared := pending.value;
      pending := None;
      if !prepared.completes {
        return None;
      }
      var q := QueueOf(State(), prepared.priority);
      if q != [] {
        SetQueue(prepared.priority, q[1..]);
      }
      return Some(prepared.id);
    }

    method ClearAll()
      modifies this
      ensures State() == Clear(old(State()))
    {
      control, realtime, repair := [], [], [];
      pending := None;
    }

    method FaultStream()
      modifies this
      ensures State() == Fault(old(State()))
    {
      ClearAll();
      faulted := true;
    }

    method OpenFresh()
      modifies this
      ensures State() == FreshConnection(old(State()))
    {
      ClearAll();
      preferRealtime := true;
      faulted := false;
    }
  }
}
