/**
 The two shared counters that bound queued BLE writes. A reservation takes a
 message slot and then its bytes; dropping it gives back the slot and then the
 bytes. Host and driver threads interleave these atomic steps freely.
 */
module TxReservations {
  import opened Prelude

  const MESSAGE_CAPACITY: int := 8

  /** How far one reservation has got. `BytesRefused` still holds its slot until the rollback step. */
  datatype Phase = SlotTaken | BytesRefused | Live | SlotReleased | Gone

  datatype Ticket = Ticket(bytes: nat, phase: Phase)

  /** The counters subtract blindly, so they are integers: that they never go negative is a theorem. */
  datatype Pool = Pool(messages: int, bytes: int, tickets: seq<Ticket>)

  const EmptyPool: Pool := Pool(0, 0, [])

  datatype Action =
    | Begin(size: nat)
    | TakeBytes(ticket: nat)
    | RollBack(ticket: nat)
    | DropSlot(ticket: nat)
    | DropBytes(ticket: nat)

  predicate At(p: Pool, i: nat, phase: Phase) {
    i < |p.tickets| && p.tickets[i].phase == phase
  }

  function Move(p: Pool, i: nat, phase: Phase): Pool
    requires i < |p.tickets|
  {
    p.(tickets := p.tickets[i := p.tickets[i].(phase := phase)])
  }

  /** One atomic step; steps a thread cannot be about to take leave the pool alone. */
  function Step(p: Pool, maxBytes: nat, a: Action): Pool {
    match a
    case Begin(size) =>
      if p.messages + 1 <= MESSAGE_CAPACITY then
        p.(messages := p.messages + 1, tickets := p.tickets + [Ticket(size, SlotTaken)])
      else p.(tickets := p.tickets + [Ticket(size, Gone)])
    case TakeBytes(i) =>
      if !At(p, i, SlotTaken) then p
      else if p.bytes + p.tickets[i].bytes <= maxBytes then
        Move(p, i, Live).(bytes := p.bytes + p.tickets[i].bytes)
      else Move(p, i, BytesRefused)
    case RollBack(i) =>
      if !At(p, i, BytesRefused) then p else Move(p, i, Gone).(messages := p.messages - 1)
    case DropSlot(i) =>
      if !At(p, i, Live) then p else Move(p, i, SlotReleased).(messages := p.messages - 1)
    case DropBytes(i) =>
      if !At(p, i, SlotReleased) then p else Move(p, i, Gone).(bytes := p.bytes - p.tickets[i].bytes)
  }

  function Run(maxBytes: nat, actions: seq<Action>): Pool {
    if actions == [] then EmptyPool else Step(Run(maxBytes, actions[..|actions| - 1]), maxBytes, actions[|actions| - 1])
  }

  // ---- What the counters count --------------------------------------------

  function SlotOf(t: Ticket): int {
    if t.phase in {SlotTaken, BytesRefused, Live} then 1 else 0
  }

  function BytesOf(t: Ticket): int {
    if t.phase in {Live, SlotReleased} then t.bytes else 0
  }

  function Slots(ts: seq<Ticket>): int {
    if ts == [] then 0 else Slots(ts[..|ts| - 1]) + SlotOf(ts[|ts| - 1])
  }

  function Bytes(ts: seq<Ticket>): int {
    if ts == [] then 0 else Bytes(ts[..|ts| - 1]) + BytesOf(ts[|ts| - 1])
  }

  lemma {:induction false} Moved(ts: seq<Ticket>, i: nat, t: Ticket)
    requires i < |ts|
    ensures Slots(ts[i := t]) == Slots(ts) - SlotOf(ts[i]) + SlotOf(t)
    ensures Bytes(ts[i := t]) == Bytes(ts) - BytesOf(ts[i]) + BytesOf(t)
  {
    var last := |ts| - 1;
    if i == last {
      assert ts[i := t][..last] == ts[..last];
    } else {
      assert ts[i := t][..last] == ts[..last][i := t];
      Moved(ts[..last], i, t);
    }
  }

  /** Every ticket contributes a non-negative amount, so each one alone is at most the total. */
  lemma {:induction false} PartOfTotal(ts: seq<Ticket>, i: nat)
    requires i < |ts|
    ensures SlotOf(ts[i]) <= Slots(ts) && BytesOf(ts[i]) <= Bytes(ts)
  {
    NonNegative(ts[..|ts| - 1]);
    if i < |ts| - 1 {
      PartOfTotal(ts[..|ts| - 1], i);
    }
  }

  lemma {:induction false} NonNegative(ts: seq<Ticket>)
    ensures 0 <= Slots(ts) && 0 <= Bytes(ts)
  {
    if ts != [] {
      NonNegative(ts[..|ts| - 1]);
    }
  }

  ghost predicate Balanced(p: Pool, maxBytes: nat) {
    && p.messages == Slots(p.tickets) <= MESSAGE_CAPACITY
    && p.bytes == Bytes(p.tickets) <= maxBytes
  }

  lemma StepBalanced(p: Pool, maxBytes: nat, a: Action)
    requires Balanced(p, maxBytes)
    ensures Balanced(Step(p, maxBytes, a), maxBytes)
  {
    match a
    case Begin(size) =>
      assert Step(p, maxBytes, a).tickets[..|p.tickets|] == p.tickets;
    case TakeBytes(i) =>
      if At(p, i, SlotTaken) {
        Moved(p.tickets, i, p.tickets[i].(phase := Live));
        Moved(p.tickets, i, p.tickets[i].(phase := BytesRefused));
      }
    case RollBack(i) =>
      if At(p, i, BytesRefused) {
        Moved(p.tickets, i, p.tickets[i].(phase := Gone));
      }
    case DropSlot(i) =>
      if At(p, i, Live) {
        Moved(p.tickets, i, p.tickets[i].(phase := SlotReleased));
      }
    case DropBytes(i) =>
      if At(p, i, SlotReleased) {
        Moved(p.tickets, i, p.tickets[i].(phase := Gone));
      }
  }

  /**
   Under every interleaving the counters equal the reservations alive, half made
   and half dropped; they never exceed their maxima and never underflow.
   */
  lemma {:induction false} CountersMatchReservations(maxBytes: nat, actions: seq<Action>)
    ensures var p := Run(maxBytes, actions);
            && 0 <= p.messages == Slots(p.tickets) <= MESSAGE_CAPACITY
            && 0 <= p.bytes == Bytes(p.tickets) <= maxBytes
  {
    if actions != [] {
      CountersMatchReservations(maxBytes, actions[..|actions| - 1]);
      StepBalanced(Run(maxBytes, actions[..|actions| - 1]), maxBytes, actions[|actions| - 1]);
    }
    NonNegative(Run(maxBytes, actions).tickets);
  }

  /** Each blind subtraction takes back no more than the counter holds at that moment. */
  lemma SubtractionsAreCovered(maxBytes: nat, actions: seq<Action>, i: nat)
    ensures var p := Run(maxBytes, actions);
            && (At(p, i, BytesRefused) || At(p, i, Live) ==> p.messages >= 1)
            && (At(p, i, SlotReleased) ==> p.bytes >= p.tickets[i].bytes)
  {
    var p := Run(maxBytes, actions);
    CountersMatchReservations(maxBytes, actions);
    if i < |p.tickets| {
      PartOfTotal(p.tickets, i);
    }
  }

  lemma {:induction false} AllGoneIsZero(ts: seq<Ticket>)
    requires forall t :: t in ts ==> t.phase == Gone
    ensures Slots(ts) == 0 && Bytes(ts) == 0
  {
    if ts != [] {
      AllGoneIsZero(ts[..|ts| - 1]);
    }
  }

  /** No capacity leaks: once every reservation has been refused or dropped, the full budget is back. */
  lemma NothingLeaks(maxBytes: nat, actions: seq<Action>)
    requires forall t :: t in Run(maxBytes, actions).tickets ==> t.phase == Gone
    ensures Run(maxBytes, actions).messages == 0 && Run(maxBytes, actions).bytes == 0
  {
    CountersMatchReservations(maxBytes, actions);
    AllGoneIsZero(Run(maxBytes, actions).tickets);
  }

  /** A whole uninterrupted reserve: begin, take the bytes, roll back if they were refused. */
  function ReserveAll(p: Pool, maxBytes: nat, size: nat): Pool {
    var i := |p.tickets|;
    Step(Step(Step(p, maxBytes, Begin(size)), maxBytes, TakeBytes(i)), maxBytes, RollBack(i))
  }

  lemma ReserveAllCounts(p: Pool, maxBytes: nat, size: nat)
    ensures var ok := p.messages + 1 <= MESSAGE_CAPACITY && p.bytes + size <= maxBytes;
            var p' := ReserveAll(p, maxBytes, size);
            && p'.messages == (if ok then p.messages + 1 else p.messages)
            && p'.bytes == (if ok then p.bytes + size else p.bytes)
            && (ok <==> At(p', |p.tickets|, Live))
  {
    var i := |p.tickets|;
    var p1 := Step(p, maxBytes, Begin(size));
    assert |p1.tickets| == i + 1 && p1.tickets[i].bytes == size;
    var p2 := Step(p1, maxBytes, TakeBytes(i));
    assert |p2.tickets| == i + 1 && p2.tickets[i].bytes == size;
  }

  /**
   A reservation is never stuck: whichever step its thread is about to take moves it on, a
   refused one gives its slot back and a dropped one its slot and then its bytes.
   */
  lemma TicketsProceed(p: Pool, maxBytes: nat, i: nat)
    requires i < |p.tickets|
    ensures var size := p.tickets[i].bytes;
            match p.tickets[i].phase
            case SlotTaken =>
              var p' := Step(p, maxBytes, TakeBytes(i));
              if p.bytes + size <= maxBytes then At(p', i, Live) && p'.bytes == p.bytes + size
              else At(p', i, BytesRefused) && p'.bytes == p.bytes
            case BytesRefused =>
              var p' := Step(p, maxBytes, RollBack(i)); At(p', i, Gone) && p'.messages == p.messages - 1
            case Live =>
              var p' := Step(p, maxBytes, DropSlot(i)); At(p', i, SlotReleased) && p'.messages == p.messages - 1
            case SlotReleased =>
              var p' := Step(p, maxBytes, DropBytes(i)); At(p', i, Gone) && p'.bytes == p.bytes - size
            case Gone => true
  {
  }

  /** The counters as one caller sees them when no other thread interferes. */
  class Counters {
    var messages: int
    var bytes: int
    const maxBytes: nat

    constructor (maxBytes: nat)
      ensures messages == 0 && bytes == 0 && this.maxBytes == maxBytes
    {
      messages, bytes := 0, 0;
      this.maxBytes := maxBytes;
    }

    /** Refusal leaves both counters as they were, whichever budget refused; `p` is any pool with these counters. */
    method Reserve(size: nat, ghost p: Pool) returns (ok: bool)
      requires p.messages == messages && p.bytes == bytes
      modifies this
      ensures ok <==> old(messages) + 1 <= MESSAGE_CAPACITY && old(bytes) + size <= maxBytes
      ensures ok ==> messages == old(messages) + 1 && bytes == old(bytes) + size
      ensures !ok ==> messages == old(messages) && bytes == old(bytes)
      ensures var p' := ReserveAll(p, maxBytes, size);
              p'.messages == messages && p'.bytes == bytes && (ok <==> At(p', |p.tickets|, Live))
    {
      ReserveAllCounts(p, maxBytes, size);
      if messages + 1 > MESSAGE_CAPACITY {
        return false;
      }
      messages := messages + 1;
      if bytes + size > maxBytes {
        messages := messages - 1;
        return false;
      }
      bytes := bytes + size;
      return true;
    }

    /** Giving back a live reservation: `p` is any pool with these counters in which ticket i is it. */
    method Drop(size: nat, ghost p: Pool, ghost i: nat)
      requires p.messages == messages && p.bytes == bytes
      requires At(p, i, Live) && p.tickets[i].bytes == size
      modifies this
      ensures messages == old(messages) - 1 && bytes == old(bytes) - size
      ensures var p' := Step(Step(p, maxBytes, DropSlot(i)), maxBytes, DropBytes(i));
              p'.messages == messages && p'.bytes == bytes && At(p', i, Gone)
    {
      messages := messages - 1;
      bytes := bytes - size;
    }
  }
}
